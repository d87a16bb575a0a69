# Download route: format resolution, verified in Dafny

This project models the decision logic of the `/api/download` route of a
YouTube downloader. The route is a Next.js handler built on ytdl-core, yt-dlp
and ffmpeg, and the model covers everything it decides before it hands work
to those tools:

- it normalises the URL;
- it resolves metadata through an ordered fallback chain (ytdl-core `getInfo`,
  then `getBasicInfo`, then `yt-dlp -J`, then an empty result) and adapts the
  yt-dlp JSON to ytdl-core's format shape;
- it builds the sorted list of available qualities;
- it classifies a format token for `HEAD` (`audio`, `muxed`, `merge` or 422);
- it picks the upstream stream for the `GET` paths;
- it maps the audio subformat to the ffmpeg container, the yt-dlp
  post-processor and the MIME type;
- it builds the download, temporary and yt-dlp argument names;
- it runs the three-tier strategy chains of the audio and video downloads;
- it looks up where the yt-dlp binary is.

Each collaborator is a parameter:

- the WHATWG URL parser;
- the metadata providers;
- `fetch`;
- yt-dlp runs;
- sanitize-filename;
- `path.join`;
- the clock.

Each call either yields a value or throws (`None`). A tier is a function that
returns `None` where the source would throw into the next `catch`. Each chain
is the generic fold `Seqs.FirstSuccess`, which is proved equal to the nested
`try`/`catch` it replaces (`Seqs.FirstSuccessCons`, `Seqs.ThreeTiers`).

The parts the source writes step by step are methods verified against reference functions:

- `Qualities.QualitiesFromFormats`, the `Set` loop and the sort;
- `Outputs.FfmpegAudioOutput`, the `mime`/`ext` assignments;
- `YtDlpBinary.Candidates`, `YtDlpBinary.FirstExisting` and `YtDlpBinary.EnsureYtDlp`, the candidate pushes and the search with `break`.

Everything else is pure functions with `ensures` clauses and lemmas.

JavaScript's "missing" values (`undefined`, `null`, `""`) are written `""` for
strings and `0` for heights. The route only tests these fields for
truthiness, so the two coincide. A format token is the subset type
`Selection.Token`, which is never empty (`searchParams.get("format") || "best"`).

Files: `wrappers.dfy` (Option), `seqs.dfy` (find, first-success fold),
`text.dfy` (JavaScript string builtins: `includes`, `replace`, `split`,
`/[^0-9]/g`, `${n}`, `parseInt`), `formats.dfy` (format records and the yt-dlp
adapter), `url.dfy`, `sorting.dfy` (the comparator sort), `qualities.dfy`,
`selection.dfy`, `outputs.dfy`, `ytdlp.dfy`, `metadata.dfy`, `handlers.dfy`.

A few behaviours of the code are easy to miss:

- `normalizeUrl` rewrites three URL shapes: `youtu.be/<id>`, `/shorts/<id>` and `/watch?v=<id>`.
- Only the first `/` of a `youtu.be` path is removed.
- The `HEAD` classifier has no special rule for an empty format list. With no formats, only `best` gives `merge`; any other non-audio token gives 422 (`Selection.HeadMode`).
- The info reply's hydration step runs yt-dlp even when `DISABLE_YTDLP=1` (`Metadata.HydrationIgnoresDisable`).
- The audio fast path falls back to the Content-Type of line 280 as written; the download chain (`Handlers.AudioGet`, `Handlers.Get`) keeps that behaviour, and the corrected fallback is modelled beside it (see "## Findings").

## Model

| member | source | states |
|---|---|---|
| `UrlNormalizer.NormalizeUrl` | src/app/api/download/route.ts:38-59 | no URL exactly when the input is empty; otherwise the input itself or a canonical watch URL; the input unchanged when the parser throws |
| `UrlNormalizer.QueryGet` | src/app/api/download/route.ts:51-52 | `searchParams.get`: the value of the first pair with the name, or "" when no pair has it |
| `UrlNormalizer.Canonical` | src/app/api/download/route.ts:44 | the canonical URL is the watch prefix followed by exactly the id |
| `UrlNormalizer.ShortsId` | src/app/api/download/route.ts:48 | `split("/")[2]` of a `/shorts/` path is the segment right after `/shorts/`, and it contains no slash |
| `UrlNormalizer.UnrecognisedPassesThrough` | src/app/api/download/route.ts:55-58 | a parsed URL that matches none of the three YouTube shapes comes back unchanged |
| `UrlNormalizer.ShortLink` | src/app/api/download/route.ts:42-45 | a `youtu.be` host with path `/<id>` gives the canonical URL of `<id>` |
| `UrlNormalizer.ShortsLink` | src/app/api/download/route.ts:46-50 | a `youtube.com` host with path `/shorts/<id>[/...]` gives the canonical URL of `<id>` |
| `UrlNormalizer.WatchLink` | src/app/api/download/route.ts:51-53 | `/watch` with a non-empty first `v` gives the canonical URL of that value, whatever the other query pairs are |
| `UrlNormalizer.CanonicalIsFixedPoint` | src/app/api/download/route.ts:41-55 | normalising a canonical URL gives it back |
| `UrlNormalizer.CanonicalHost` | src/app/api/download/route.ts:42-46 | the canonical host fails the `youtu.be` test and passes the `youtube.com` test |
| `Text.ContainsIsOccurrence` | src/app/api/download/route.ts:42 | `includes` holds exactly when the substring occurs at some offset |
| `Text.RemoveFirstCutsFirstOccurrence` | src/app/api/download/route.ts:43 | `replace("/", "")` deletes exactly the first slash and leaves a string without a slash unchanged |
| `Text.SplitJoinRoundTrip` | src/app/api/download/route.ts:48 | joining the pieces of `split` with the separator gives the input back, and no piece contains the separator |
| `Text.NatToStringRoundTrip` | src/app/api/download/route.ts:85 | reading back the decimal text of a number gives the number |
| `Text.NatToStringInjective` | src/app/api/download/route.ts:161 | different numbers print differently |
| `Text.ParseIntOfDigits` | src/app/api/download/route.ts:190 | `parseInt` of digits followed by a non-digit (or nothing) is the value of the digits, unless the digits are `0` and an `x` follows, which switches to hexadecimal |
| `Text.ParseIntOfHeightLabel` | src/app/api/download/route.ts:165 | `parseInt` of a printed number followed by a non-digit suffix (such as `p`, `p60` or `px`) is the number; only `0` followed by `x` is read otherwise |
| `Text.ParseInt` | src/app/api/download/route.ts:165 | `parseInt` of a blank string is NaN, and a negative result needs a leading `-` after the white space |
| `Text.DigitsOf` | src/app/api/download/route.ts:190 | `.replace(/[^0-9]/g, "")` leaves only digits and never lengthens the string |
| `Text.DigitsOfMembers` | src/app/api/download/route.ts:190 | a character survives exactly when it is an ASCII digit of the input |
| `Text.DigitsOfAppend` | src/app/api/download/route.ts:190 | the digits of a concatenation are the digits of each part, concatenated |
| `Formats.AdaptFormat` | src/app/api/download/route.ts:81-89 | the yt-dlp field mapping: id, url and height copied; video exactly when there is a height; audio exactly when there are channels or a sample rate; mime `video/<ext>` only with an ext; label = format note, else `${height}p`, else missing exactly when both are absent |
| `Formats.AdaptFormats` | src/app/api/download/route.ts:81 | a non-array `formats` gives `[]`; an array is mapped element by element in order |
| `Formats.AdaptDump` | src/app/api/download/route.ts:76-90 | the info-like object keeps the title, takes the thumbnails only when they are an array, and adapts the formats |
| `Formats.HeightLabelKey` | src/app/api/download/route.ts:161-165 | the leading integer of `${h}p` is `h` |
| `Formats.HeightLabelInjective` | src/app/api/download/route.ts:161 | different heights give different `${h}p` labels |
| `Qualities.QualitiesFromFormats` | src/app/api/download/route.ts:156-167 | the loop and sort compute the quality list; a label is listed exactly when some format with video offers it; no label appears twice |
| `Qualities.Qualities` | src/app/api/download/route.ts:164-166 | the sorted list is a permutation of the collected labels |
| `Qualities.Collected` | src/app/api/download/route.ts:156-163 | the set holds only non-empty labels, at most one per format |
| `Qualities.QualitiesAreOffered` | src/app/api/download/route.ts:158-163 | the list holds exactly the labels (`qualityLabel`, else `${height}p`) of formats with `hasVideo` or a height |
| `Qualities.QualitiesDistinct` | src/app/api/download/route.ts:157-164 | the `Set` keeps each label once, and the sort neither adds nor drops entries |
| `Qualities.QualitiesOrdered` | src/app/api/download/route.ts:164-166 | when every label has a leading integer, the list ascends by it, and labels with equal values keep first-seen order |
| `Qualities.HeightOnlyFormatListed` | src/app/api/download/route.ts:161 | a format with a height but no label is listed as `${height}p`, which sorts by its height |
| `Qualities.AdaptedFormatOffers` | src/app/api/download/route.ts:81-89 | an adapted yt-dlp format offers a quality exactly when it has a height, and then under its format note or else `${height}p` |
| `Qualities.DumpQualities` | src/app/api/download/route.ts:81-89 | the qualities of an adapted dump are exactly the labels of its formats that have a height |
| `Qualities.CollectedMembers` | src/app/api/download/route.ts:158-163 | a label is in the set after the loop exactly when some format seen so far offers it |
| `Qualities.CollectedDistinct` | src/app/api/download/route.ts:157-162 | the set after the loop has no repeated label |
| `Qualities.CollectedPrefix` | src/app/api/download/route.ts:157-163 | the set keeps first-seen order: the labels collected from a prefix of the formats stay a prefix of the set |
| `KeySort.SortByPermutes` | src/app/api/download/route.ts:165 | the sort is a permutation of its input |
| `KeySort.SortSortedAndStable` | src/app/api/download/route.ts:165 | with every key defined, the result ascends by key and keeps the input order among equal keys |
| `KeySort.InsertSorted` | src/app/api/download/route.ts:165 | one insertion step keeps a sorted list sorted |
| `KeySort.InsertStable` | src/app/api/download/route.ts:165 | one insertion step puts the new element behind every element with the same key |
| `Selection.IsAudioToken` | src/app/api/download/route.ts:183 | `format.startsWith("audio")`: the first five characters are `audio` |
| `Selection.TokenOf` | src/app/api/download/route.ts:178 | a missing or empty `format` parameter becomes `best`; any other value is kept |
| `Selection.RequestedHeight` | src/app/api/download/route.ts:190 | there is no requested height (NaN) exactly when the token has no digit |
| `Selection.RequestedHeightIsParseInt` | src/app/api/download/route.ts:190 | the requested height is `parseInt` of the token's digits |
| `Selection.RequestedHeightConcatenatesDigits` | src/app/api/download/route.ts:190 | digits around non-digits are concatenated: `1080p60` asks for 108060 |
| `Selection.HeadMode` | src/app/api/download/route.ts:183-193 | `audio` exactly for `audio…` tokens; `muxed` exactly when some format has the exact label and both tracks (or both codecs); `merge` exactly when neither applies and the token is `best` or some video format fits the height; 422 never for `best` |
| `Selection.HeadAudioIgnoresFormats` | src/app/api/download/route.ts:183-185 | an audio token is answered `audio` whatever the formats |
| `Selection.HeadMonotone` | src/app/api/download/route.ts:187-192 | listing more formats never turns an answer into 422 and never demotes `muxed` |
| `Selection.HeadMergeIsBacked` | src/app/api/download/route.ts:190-192 | `merge` for a token other than `best` implies a height and a video format within it (or one with no height whose label contains the token) |
| `Selection.MuxedPick` | src/app/api/download/route.ts:397-405 | the pick has both tracks; it contains the token in its label unless the token is `best`; it is an inexact label only when no exact muxed label exists; there is none exactly when the fallback rule matches nothing |
| `Selection.MuxedPickPrefersExact` | src/app/api/download/route.ts:397 | the first format with the exact label and both tracks is the pick |
| `Selection.MuxedPickFallback` | src/app/api/download/route.ts:398-405 | with no exact label, the first muxed format (`best`) or the first muxed format whose label contains the token is the pick |
| `Selection.HeadMuxedAgreesWithGet` | src/app/api/download/route.ts:187 | when HEAD would say `muxed` from the track flags, the GET pick has exactly the requested label |
| `Selection.RawSubFormat` | src/app/api/download/route.ts:251 | `format.split(":")[1]` is missing exactly when the token has no `:`, and never contains a `:` |
| `Selection.RawSubFormatOfToken` | src/app/api/download/route.ts:251 | `format.split(":")[1]` is the text between the first `:` and the next `:` or the end, even when it is empty: `audio::mp3` selects `""` and then `m4a`, `audio:mp3:x` selects `mp3` |
| `Selection.SubFormat` | src/app/api/download/route.ts:251-257 | `fmt \|\| "m4a"`: the second `:` piece whenever it is non-empty, and `m4a` when it is missing or empty |
| `Selection.SubFormatOfToken` | src/app/api/download/route.ts:251 | `audio:<sub>[:…]` selects `<sub>` |
| `Selection.SubFormatDefault` | src/app/api/download/route.ts:251-257 | `audio` and `audio:` select `m4a` |
| `Selection.AudioFastPick` | src/app/api/download/route.ts:256-261 | the fast path is tried only for `m4a` and `opus`; its target is a listed audio-only format with a URL and the matching MIME substring; no target exactly when no format qualifies |
| `Selection.AudioFastPickFirst` | src/app/api/download/route.ts:258-260 | the first qualifying format in list order is the target |
| `Selection.MergeVideoCandidates` | src/app/api/download/route.ts:452 | a format passes the merge filter exactly when it is video-only and, when the token has digits, its height (0 when none) is within them |
| `Selection.MergeCandidatesWithinHeight` | src/app/api/download/route.ts:452 | every merge candidate is video-only and within the requested height |
| `Selection.MissingHeightAlwaysMergeable` | src/app/api/download/route.ts:452 | a video-only format without a height always passes the filter |
| `Selection.YtDlpQuery` | src/app/api/download/route.ts:487-489 | without a height the selector is `bestvideo+bestaudio/best`; with height `h` it is exactly `bestvideo[height<=h]`, then `]+bestaudio/`, then `best[height<=h]`, and the bound can be read back from its digits |
| `Selection.YtDlpQueryInjective` | src/app/api/download/route.ts:487-489 | different height bounds, or a bound and none, give different `-f` selectors |
| `Outputs.FfmpegAudioTarget` | src/app/api/download/route.ts:301-321 | the MIME is always `audio/…`; a subformat other than mp3, wav and opus (flac included) gets mp4/audio/mp4/m4a; the extension is the subformat exactly for mp3, wav and m4a; the container is ogg exactly for opus |
| `Outputs.FfmpegAudioOutput` | src/app/api/download/route.ts:301-321 | the step-by-step assignments produce the table's container, MIME and extension |
| `Outputs.PostProcessorArgs` | src/app/api/download/route.ts:351-358 | the arguments always start `--extract-audio --audio-format`, followed by the subformat when it is in the table and `m4a` otherwise; the tier throws exactly for keys inherited from `Object.prototype` |
| `Outputs.YtDlpAudioMime` | src/app/api/download/route.ts:371-381 | the MIME is always `audio/…`, and `audio/mp4` for a subformat outside the table |
| `Outputs.TranscodersAgreeExceptFlac` | src/app/api/download/route.ts:301-381 | ffmpeg and yt-dlp send the same Content-Type for every subformat except `flac` |
| `Outputs.UnknownSubformatIsM4a` | src/app/api/download/route.ts:351-381 | an unknown subformat is extracted as m4a and sent as `audio/mp4` by both transcoders |
| `Outputs.FileName` | src/app/api/download/route.ts:169-172 | the name is the sanitized title, or sanitized `download` when there is no title, then a dot and the extension |
| `Outputs.FileNameParts` | src/app/api/download/route.ts:169-172 | two names with the same extension are equal only when their sanitized titles are equal |
| `Outputs.TempFileName` | src/app/api/download/route.ts:345 | the first `-` follows the printed clock reading, which is all digits, and the rest is the download name |
| `Outputs.TempFileNameInjective` | src/app/api/download/route.ts:493 | two temporary names are equal only for the same clock reading and the same download name |
| `Outputs.CookieOf` | src/app/api/download/route.ts:205 | the cookie is the `cookie` parameter when it is non-empty, otherwise the `x-youtube-cookie` header; it is missing only when both are |
| `Outputs.RequestHeaders` | src/app/api/download/route.ts:242-248 | the upstream headers are the user agent and `*/*`, plus `Cookie` exactly when there is a cookie and `Range` exactly when there is a range |
| `Outputs.AddHeaders` | src/app/api/download/route.ts:346-349 | the user-agent header first, then the cookie header exactly when there is a cookie |
| `Outputs.AudioCommand` | src/app/api/download/route.ts:346-367 | the audio argv is the `--add-header` pairs, then `--no-playlist -f bestaudio`, then exactly the post-processor arguments, then five more entries, ending with the URL; it passes `-o <tmp>` and the ffmpeg location |
| `Outputs.MergeCommand` | src/app/api/download/route.ts:494-506 | the merge argv is the `--add-header` pairs (user agent, then cookie), then `--no-playlist` and eight more entries ending with the URL; it passes `-f <query>`, `--merge-output-format mkv`, `-o <tmp>` and the ffmpeg location |
| `YtDlpBinary.BinNames` | src/app/api/download/route.ts:103-104 | Windows tries `yt-dlp.exe` then `yt-dlp`; other platforms try `yt-dlp` only |
| `YtDlpBinary.Candidates` | src/app/api/download/route.ts:102-113 | `YTDLP_PATH` first when set, then every name in `node_modules/.bin`, then every name in the cache directory |
| `YtDlpBinary.FirstExisting` | src/app/api/download/route.ts:115-120 | the loop with `break` finds the first candidate that is a regular file |
| `YtDlpBinary.EnsureYtDlp` | src/app/api/download/route.ts:100-132 | the binary is the first existing candidate, else the download target when the download succeeds |
| `YtDlpBinary.Located` | src/app/api/download/route.ts:115-129 | when some candidate is a regular file the binary is one; a binary that is not a file is the download target, chosen only when no candidate is a file and the download succeeds |
| `YtDlpBinary.EnvPathWins` | src/app/api/download/route.ts:106-118 | a set `YTDLP_PATH` that is a file is always used |
| `YtDlpBinary.DownloadTargetIsCandidate` | src/app/api/download/route.ts:112-128 | the download target is itself a candidate, so a later search finds it |
| `YtDlpBinary.LocatedIsCandidate` | src/app/api/download/route.ts:115-129 | a binary is found exactly when the download succeeds or some candidate exists, and it is always a candidate |
| `Seqs.Find` | src/app/api/download/route.ts:187 | `find` returns a member satisfying the predicate, and none exactly when no element does |
| `Seqs.FindIsFirst` | src/app/api/download/route.ts:397 | `find` returns the first satisfying element in list order |
| `Seqs.FirstSuccess` | src/app/api/download/route.ts:62-97 | the fallback when every attempt fails; otherwise the value of the first attempt that does not fail |
| `Seqs.FirstSuccessCons` | src/app/api/download/route.ts:62-69 | the fold equals the nested try/catch: the head wins when it succeeds, else the rest decides |
| `Seqs.ThreeTiers` | src/app/api/download/route.ts:395-524 | a three-tier chain is the three nested try/catch blocks |
| `Seqs.LaterAttemptsIrrelevant` | src/app/api/download/route.ts:62-64 | attempts after the first success never change the outcome |
| `Metadata.YtDlpTier` | src/app/api/download/route.ts:70-91 | the yt-dlp tier succeeds exactly when yt-dlp is enabled, the binary is present and the dump parses, and then yields the adapted dump |
| `Metadata.Resolve` | src/app/api/download/route.ts:61-98 | the source is `getInfo` exactly when it succeeds, `getBasicInfo` exactly when only that succeeds, yt-dlp exactly when both fail and yt-dlp is enabled and works; each tier's own info is returned; otherwise the empty fallback |
| `Metadata.DisabledSkipsYtDlp` | src/app/api/download/route.ts:72 | with yt-dlp disabled the result does not depend on yt-dlp and never has the yt-dlp source |
| `Metadata.AllTiersFail` | src/app/api/download/route.ts:92-95 | when every tier fails the chain answers with an empty title, no formats and source `fallback` |
| `Metadata.Thumbnail` | src/app/api/download/route.ts:214 | the first thumbnail's URL, else `thumbnail_url` |
| `Metadata.HydratedFormats` | src/app/api/download/route.ts:215-232 | a non-empty list is kept; an empty one is replaced by the adapted dump when yt-dlp works, and stays empty otherwise |
| `Metadata.Info` | src/app/api/download/route.ts:210-234 | `limited` exactly when `getInfo` failed; the title and thumbnail come from the resolved info; the qualities come from its hydrated formats |
| `Metadata.InfoQualitiesOffered` | src/app/api/download/route.ts:233 | the reply lists exactly the labels offered by the hydrated formats, each once |
| `Metadata.PrimarySingleFormat` | src/app/api/download/route.ts:210-234 | `getInfo` with one labelled video format like `720p` gives `[label]` and `limited: false` |
| `Metadata.InfoWhenAllFail` | src/app/api/download/route.ts:210-234 | all tiers failing gives an empty title, no thumbnail, no qualities and `limited: true`, with no error |
| `Metadata.LimitedMeansFallbackTier` | src/app/api/download/route.ts:234 | `limited` is exactly `source !== "ytdl.getInfo"` |
| `Metadata.HydrationIgnoresDisable` | src/app/api/download/route.ts:217-220 | with yt-dlp disabled and every tier failing, the qualities still come from the yt-dlp dump |
| `Handlers.Title` | src/app/api/download/route.ts:265 | the title, else the given default |
| `Handlers.Resolved` | src/app/api/download/route.ts:182 | `getInfoWithFallback(url).info`, as re-read at lines 254, 325, 343, 470 and 486: the `getInfo` info when it succeeds, else the `getBasicInfo` info, else the adapted yt-dlp dump when yt-dlp is enabled, present and its dump parses, else the empty info |
| `Handlers.Head` | src/app/api/download/route.ts:174-197 | 400 `Missing url` exactly for a missing URL; otherwise `audio` for audio tokens, and `muxed`, `merge` or 422 `Format unavailable` exactly as `HeadMode` classifies the resolved formats; never 422 for `best` |
| `Handlers.FastPathTypeAsWritten` | src/app/api/download/route.ts:280 | as written: the fallback type is `audio/mp4` exactly when the raw subformat is literally `m4a` |
| `Handlers.FastPathType` | src/app/api/download/route.ts:280 | corrected: the fallback type is `audio/mp4` exactly when the defaulted subformat is `m4a` |
| `Handlers.FastPathTypeAsWrittenMislabels` | src/app/api/download/route.ts:280 | for a token without `:` the target is m4a, but the as-written fallback type is `audio/ogg`, unlike the transcoders |
| `Handlers.FastPathTypeAgreesWithTranscoders` | src/app/api/download/route.ts:280 | the corrected fallback type equals both transcoders' MIME for `m4a` and `opus` |
| `Handlers.AudioFastTier` | src/app/api/download/route.ts:253-292 | succeeds exactly when there is a fast-path target and either fast-redirect mode is on or the upstream fetch is ok with a body; redirects to the target exactly in fast-redirect mode; otherwise proxies with the upstream status, length and Content-Type, or the given fallback type when it sends none; named after the title (or `audio`) with the subformat as extension |
| `Handlers.AudioFastTierAsWritten` | src/app/api/download/route.ts:253-292 | the fast tier `AudioGet` runs: it is `Handlers.AudioFastTier` with line 280 as written as its fallback type, so it inherits that tier's success, redirect, status, length and name clauses; every stream it sends has a Content-Type, and a proxied upstream without one is labelled `audio/mp4` exactly when the raw `split(":")[1]` is `m4a`; `Handlers.CorrectionOnlyChangesFallbackType` relates it to the corrected tier |
| `Handlers.AudioFastTierCorrected` | src/app/api/download/route.ts:253-292 | `Handlers.AudioFastTier` with line 280 deciding on the defaulted subformat: the same success, redirect, status, length and name clauses, and a proxied upstream without a Content-Type is labelled `audio/mp4` exactly when the subformat is `m4a` |
| `Handlers.CorrectionOnlyChangesFallbackType` | src/app/api/download/route.ts:276-280 | the as-written and corrected fast tiers both succeed or both fail, agree on redirects, status, length and name, and are identical when the token has a non-empty subformat |
| `Handlers.AudioGetMislabelsBareAudio` | src/app/api/download/route.ts:250-292 | as written, `audio` or `audio:` with a proxied m4a target and no upstream Content-Type downloads a `.m4a` file as `audio/ogg`, unlike the transcoders |
| `Handlers.CorrectedFastTierLabelsLikeTranscoders` | src/app/api/download/route.ts:276-280 | corrected, the same request is labelled with the MIME type both transcoders give the subformat |
| `Handlers.AudioTranscodeTier` | src/app/api/download/route.ts:294-336 | succeeds exactly when the ffmpeg pipeline starts; answers 200 with no length, the ffmpeg MIME and the ffmpeg extension |
| `Handlers.AudioYtDlpTier` | src/app/api/download/route.ts:338-388 | succeeds exactly when yt-dlp is enabled and present, the post-processor lookup works and the run of `AudioCommand` with those arguments, the cookie, the ffmpeg path and the temp file succeeds; answers 200 with the yt-dlp MIME, the printed file size as length, named with the subformat |
| `Handlers.TempFileSeparatesDownloads` | src/app/api/download/route.ts:341-345 | `Handlers.TempFile` is `path.join(path.join(os.tmpdir(), dir), tempName)`, with `tempName` the `Outputs.TempFileName` of `Date.now()` and the download name, as at lines 341-345 and 490-493; when `path.join` keeps names apart in the directory, two downloads share a temporary file only for the same millisecond and the same download name |
| `Handlers.AudioGet` | src/app/api/download/route.ts:250-391 | the ordered chain: the as-written fast tier's answer when it succeeds; else the transcoder's stream when ffmpeg starts; else the yt-dlp tier's answer, or 500 `Audio conversion failed`; a redirect only in fast-redirect mode and to an audio-only format's URL |
| `Handlers.AudioGetFastRedirect` | src/app/api/download/route.ts:253-273 | with fast redirect on and a fast-path target, the audio request is answered by a redirect to the first qualifying audio-only format |
| `Handlers.MuxedTier` | src/app/api/download/route.ts:395-445 | succeeds exactly when `getInfo` itself gives a muxed pick with a URL and either fast-redirect mode is on or the upstream fetch is ok with a body; redirects exactly in fast-redirect mode; otherwise proxies as `application/octet-stream` with the upstream status and the `HEAD` length, else the upstream length; named `<title>.mp4` |
| `Handlers.ProbedLength` | src/app/api/download/route.ts:418-425 | in fast mode no `HEAD` is sent and there is no probed length; otherwise it is what the `HEAD` reports |
| `Handlers.MergeTier` | src/app/api/download/route.ts:447-480 | succeeds exactly when the ytdl-core and ffmpeg merge starts, with a 200 matroska stream named `.mkv` |
| `Handlers.MergeYtDlpTier` | src/app/api/download/route.ts:483-520 | succeeds exactly when yt-dlp is enabled and present and the run of `MergeCommand` with `YtDlpQuery` of the requested height, the cookie, the ffmpeg path and the temp file succeeds; answers a 200 matroska stream with the printed file size as length, named `.mkv` |
| `Handlers.VideoGet` | src/app/api/download/route.ts:394-524 | the ordered chain: the muxed tier's answer when it succeeds; else the matroska merge when ffmpeg starts; else the yt-dlp merge tier's answer, or 500 `Video download failed`; a redirect only in fast-redirect mode and to a muxed format of `getInfo` |
| `Handlers.Download` | src/app/api/download/route.ts:239-524 | the upstream headers of the cookie and range, then the audio chain for `audio…` tokens and the video chain for every other token; the only error is a 500 |
| `Handlers.Get` | src/app/api/download/route.ts:199-529 | 400 `Missing url` exactly for a missing URL; for `mode=info` the info reply of the normalised URL; otherwise the download of the normalised URL with the defaulted token and the cookie, whose only error is 500 |
| `Handlers.Mp3IsTranscoded` | src/app/api/download/route.ts:257-321 | `audio:mp3` never takes the fast path; it is transcoded to `audio/mpeg` and named `.mp3` |
| `Handlers.NoMuxedMeansMatroska` | src/app/api/download/route.ts:395-520 | with no muxed format available, a working merge tier yields a matroska stream |
| `Handlers.FastRedirectSkipsFetch` | src/app/api/download/route.ts:406-418 | in fast-redirect mode a muxed target is redirected to without any upstream request |
| `Handlers.DisabledYtDlpNeverRuns` | src/app/api/download/route.ts:484 | with yt-dlp disabled neither download chain depends on what yt-dlp would do |
| `Handlers.GetInfoFailureMeansMatroska` | src/app/api/download/route.ts:446-480 | when `getInfo` fails and the merge starts, a video request is the 200 matroska stream of the merge tier |
| `Handlers.ExactLabelRedirected` | src/app/api/download/route.ts:397-418 | in fast-redirect mode the first exact-label muxed format with a URL is the redirect target |
| `Handlers.HeadMuxedIsGetTarget` | src/app/api/download/route.ts:187-188 | a `getInfo` format with the exact label and both tracks makes HEAD say `muxed` and makes GET pick that label |

## Left out

- `cleanupPlayerScripts` (lines 18-30) deletes files in the working directory. This is filesystem I/O and is not modelled.
- `nodeToWebStream` (lines 134-154) is event-driven stream bridging with cancellation. The model has no streams: a response records status, type, length and name only.
- Streaming of bodies, ffmpeg and ytdl-core stream execution, temp-directory creation, `statSync`, `createReadStream` and unlink-on-close are I/O. The model reads them as success or failure (`audioTranscodeStarts`, `mergeStarts`, `ytDlpRun`).
- `encodeURIComponent` in `Content-Disposition` is not modelled. The response keeps the unencoded file name.
- `sanitize-filename` and `path.join` are uninterpreted function parameters. `Date.now()` and `os.tmpdir()` are parameters.
- `Handlers.MergeTier`: ytdl-core's choice of the "highest" video among the candidates is not part of the tier. The filter itself is `Selection.MergeVideoCandidates`.
- `Handlers.Get`: the outer `catch` (lines 526-528) is not modelled, nor are the `catch` blocks of HEAD (194-196) and the info path (235-237). No modelled step throws into them, because the metadata chain never fails.
- Repeated calls of `getInfoWithFallback` within one request are modelled as one value. The providers are fixed functions of the URL, so every repetition gives the same value.
- `Metadata.YtDlpTier`: the outcome of `ensureYtDlp` is a boolean of the providers. It is not derived from `YtDlpBinary.EnsureYtDlp`, which models the search on its own.
- `KeySort.SortSortedAndStable`: when some label has no leading integer, the comparator returns NaN. ECMAScript then leaves the order implementation-defined. The model fixes a stable insertion sort and proves the order only when every label has a leading integer.
- `Selection.RequestedHeight`: the concatenated digits are read as an unbounded natural. JavaScript's `parseInt` rounds such a number to a double beyond 2^53, so from there on line 489's selector carries the rounded bound in full digits; `${h}` switches to exponent notation only from 10^21, and from about 1.8·10^308 `parseInt` gives `Infinity`, so the selector reads `height<=Infinity`.
- `Formats.AdaptFormat`: the JSON fields are assumed to have their documented types: strings, and numbers for the height, channels and sample rate. `hasAudio` is `!!audio_channels || asr`, which can be a number in JavaScript; it is modelled by its truthiness.
- `Outputs.YtDlpAudioMime`: the model gives `audio/mp4` for keys inherited from `Object.prototype`. Those keys never reach the lookup, because the post-processor spread has already failed.
- The UI (`src/app/page.tsx`) and the build configuration are outside the model.

## Findings

| source | as written | input that shows it | evidently intended | confidence | as-written member | corrected member |
|---|---|---|---|---|---|---|
| src/app/api/download/route.ts:280 | the fast-path fallback Content-Type tests the raw `fmt === "m4a"`, although `fmt` is `undefined` for `audio` and `""` for `audio:` | `format=audio`, an m4a audio-only target, and an upstream without a Content-Type header: the file is named `.m4a` but sent as `audio/ogg` | test the defaulted subformat `fmt \|\| "m4a"`, as lines 257, 265 and 278 do | not executed; medium | `Handlers.AudioGetMislabelsBareAudio` | `Handlers.CorrectedFastTierLabelsLikeTranscoders` |

The download chain keeps line 280 as written, so `Handlers.AudioGet` and `Handlers.Get` answer what the route does. The corrected tier (`AudioFastTierCorrected`, which falls back to `Handlers.FastPathType`) differs from it only in the fallback Content-Type (`Handlers.CorrectionOnlyChangesFallbackType`).
