/** `getInfoWithFallback` and the `mode=info` reply. The providers are
    parameters: each provider call either yields a value or throws (`None`). */
module Metadata {
  import opened Wrappers
  import opened Formats
  import Seqs
  import Qualities

  /** The `source` tag of the resolved metadata. */
  datatype Source = GetInfo | GetBasicInfo | YtDlpJson | Fallback

  datatype Resolved = Resolved(info: Info, source: Source)

  /** What the collaborators do for a URL: ytdl-core's `getInfo` and
      `getBasicInfo`, whether `ensureYtDlp` resolves, and the parsed output of
      `yt-dlp -J <url>` (`None` when the run or `JSON.parse` throws). */
  datatype Providers = Providers(
    getInfo: string -> Option<Info>,
    getBasicInfo: string -> Option<Info>,
    ytDlpReady: bool,
    dump: string -> Option<Dump>)

  /** One tier's outcome tagged with its source. */
  function Tag(o: Option<Info>, s: Source): (r: Option<Resolved>)
    ensures r.Some? <==> o.Some?
    ensures r.Some? ==> r.value == Resolved(o.value, s)
  {
    match o
    case None => None
    case Some(i) => Some(Resolved(i, s))
  }

  /** The yt-dlp tier: skipped (thrown) when `DISABLE_YTDLP=1`, when the
      binary cannot be obtained, or when the dump fails. */
  function YtDlpTier(p: Providers, ytDlpEnabled: bool, url: string): (r: Option<Resolved>)
    ensures r.Some? <==> ytDlpEnabled && p.ytDlpReady && p.dump(url).Some?
    ensures r.Some? ==> r.value == Resolved(AdaptDump(p.dump(url).value), YtDlpJson)
  {
    if !ytDlpEnabled || !p.ytDlpReady then None
    else match p.dump(url)
      case None => None
      case Some(d) => Some(Resolved(AdaptDump(d), YtDlpJson))
  }

  /** The three tiers in the order they are tried. */
  function Tiers(p: Providers, ytDlpEnabled: bool, url: string): seq<Option<Resolved>>
  {
    [Tag(p.getInfo(url), GetInfo), Tag(p.getBasicInfo(url), GetBasicInfo), YtDlpTier(p, ytDlpEnabled, url)]
  }

  /** `getInfoWithFallback(url)`: the first tier that does not throw, else the
      empty info of the terminal fallback. It never fails. */
  function Resolve(p: Providers, ytDlpEnabled: bool, url: string): (r: Resolved)
    ensures r.source == GetInfo <==> p.getInfo(url).Some?
    ensures r.source == GetInfo ==> r.info == p.getInfo(url).value
    ensures r.source == GetBasicInfo <==> p.getInfo(url).None? && p.getBasicInfo(url).Some?
    ensures r.source == GetBasicInfo ==> r.info == p.getBasicInfo(url).value
    ensures r.source == YtDlpJson <==>
              p.getInfo(url).None? && p.getBasicInfo(url).None? && ytDlpEnabled && p.ytDlpReady && p.dump(url).Some?
    ensures r.source == YtDlpJson ==> r.info == AdaptDump(p.dump(url).value)
    ensures r.source == Fallback ==> r.info == EmptyInfo
  {
    var tiers := Tiers(p, ytDlpEnabled, url);
    assert Seqs.NoneBefore(tiers, 0);
    assert tiers[0].None? ==> Seqs.NoneBefore(tiers, 1);
    assert tiers[0].None? && tiers[1].None? ==> Seqs.NoneBefore(tiers, 2);
    Seqs.FirstSuccess(tiers, Resolved(EmptyInfo, Fallback))
  }

  /** With yt-dlp disabled the dump is never consulted. */
  lemma DisabledSkipsYtDlp(p: Providers, url: string, q: Providers)
    requires q.getInfo == p.getInfo && q.getBasicInfo == p.getBasicInfo
    ensures Resolve(p, false, url) == Resolve(q, false, url)
    ensures Resolve(p, false, url).source != YtDlpJson
  {
  }

  /** When every provider throws the chain still answers, with an empty title
      and no formats. */
  lemma AllTiersFail(p: Providers, ytDlpEnabled: bool, url: string)
    requires p.getInfo(url).None? && p.getBasicInfo(url).None?
    requires !ytDlpEnabled || !p.ytDlpReady || p.dump(url).None?
    ensures Resolve(p, ytDlpEnabled, url) == Resolved(EmptyInfo, Fallback)
  {
  }

  // ----- mode=info -----

  /** The JSON body of the info reply. */
  datatype InfoReply = InfoReply(rawTitle: string, thumbnail: string, availableQualities: seq<string>, limited: bool)

  /** `videoDetails.thumbnails[0].url || thumbnail_url || ""`. */
  function Thumbnail(info: Info): (thumb: string)
    ensures |info.thumbnails| > 0 && info.thumbnails[0] != "" ==> thumb == info.thumbnails[0]
    ensures (|info.thumbnails| == 0 || info.thumbnails[0] == "") ==> thumb == info.thumbnailUrl
  {
    if |info.thumbnails| > 0 && info.thumbnails[0] != "" then info.thumbnails[0] else info.thumbnailUrl
  }

  /** Lines 215-232: an empty format list is refilled from `yt-dlp -J`. This
      step calls `ensureYtDlp` without consulting `DISABLE_YTDLP`, and any
      failure leaves the list empty. */
  function HydratedFormats(p: Providers, url: string, formats: seq<MediaFormat>): (r: seq<MediaFormat>)
    ensures formats != [] ==> r == formats
    ensures formats == [] && p.ytDlpReady && p.dump(url).Some? ==> r == AdaptFormats(p.dump(url).value.formats)
    ensures formats == [] && (!p.ytDlpReady || p.dump(url).None?) ==> r == []
  {
    if formats != [] then formats
    else if p.ytDlpReady && p.dump(url).Some? then AdaptFormats(p.dump(url).value.formats)
    else []
  }

  /** Lines 211-234: the `mode=info` reply for a normalised URL. */
  function Info(p: Providers, ytDlpEnabled: bool, url: string): (r: InfoReply)
    ensures r.limited <==> p.getInfo(url).None?
    ensures r.rawTitle == Resolve(p, ytDlpEnabled, url).info.title
    ensures r.thumbnail == Thumbnail(Resolve(p, ytDlpEnabled, url).info)
    ensures r.availableQualities ==
              Qualities.Qualities(HydratedFormats(p, url, Resolve(p, ytDlpEnabled, url).info.formats))
  {
    var resolved := Resolve(p, ytDlpEnabled, url);
    var formats := HydratedFormats(p, url, resolved.info.formats);
    InfoReply(resolved.info.title, Thumbnail(resolved.info), Qualities.Qualities(formats), resolved.source != GetInfo)
  }

  /** Every quality offered is the label of a format with video in the list
      the reply was built from, and each of those labels is offered once. */
  lemma InfoQualitiesOffered(p: Providers, ytDlpEnabled: bool, url: string)
    ensures var fs := HydratedFormats(p, url, Resolve(p, ytDlpEnabled, url).info.formats);
            var qs := Info(p, ytDlpEnabled, url).availableQualities;
            (forall q :: q in qs <==> exists i :: 0 <= i < |fs| && Qualities.Offers(fs[i], q)) &&
            (forall q :: multiset(qs)[q] <= 1)
  {
    var fs := HydratedFormats(p, url, Resolve(p, ytDlpEnabled, url).info.formats);
    Qualities.QualitiesAreOffered(fs);
    Qualities.QualitiesDistinct(fs);
  }

  /** The primary provider answering with a single labelled video format
      gives a full (not limited) reply listing exactly that label. */
  lemma PrimarySingleFormat(p: Providers, ytDlpEnabled: bool, url: string, f: MediaFormat)
    requires p.getInfo(url).Some? && p.getInfo(url).value.formats == [f]
    requires f.hasVideo && f.qualityLabel != ""
    ensures Info(p, ytDlpEnabled, url).availableQualities == [f.qualityLabel]
    ensures !Info(p, ytDlpEnabled, url).limited
  {
    var fs := [f];
    assert fs[..0] == [];
    assert Qualities.Collected(fs) == [f.qualityLabel];
  }

  /** Every provider failing still gives a reply: no title and no
      qualities when the hydration also fails, and marked limited. */
  lemma InfoWhenAllFail(p: Providers, ytDlpEnabled: bool, url: string)
    requires p.getInfo(url).None? && p.getBasicInfo(url).None?
    requires !p.ytDlpReady || p.dump(url).None?
    ensures Info(p, ytDlpEnabled, url) == InfoReply("", "", [], true)
  {
    AllTiersFail(p, ytDlpEnabled, url);
  }

  /** A reply is limited exactly when some tier after the primary answered. */
  lemma LimitedMeansFallbackTier(p: Providers, ytDlpEnabled: bool, url: string)
    ensures Info(p, ytDlpEnabled, url).limited <==> Resolve(p, ytDlpEnabled, url).source != GetInfo
  {
  }

  /** The hydration step runs yt-dlp even with `DISABLE_YTDLP=1`: when every
      tier fails, the reply's qualities still come from the dump. */
  lemma HydrationIgnoresDisable(p: Providers, url: string, d: Dump)
    requires p.getInfo(url).None? && p.getBasicInfo(url).None?
    requires p.ytDlpReady && p.dump(url) == Some(d)
    ensures Resolve(p, false, url).source == Fallback
    ensures Info(p, false, url).availableQualities == Qualities.Qualities(AdaptFormats(d.formats))
  {
  }
}
