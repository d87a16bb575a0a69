/** The format records the request handlers inspect, and the adapter that
    turns the JSON dump of `yt-dlp -J` into records of the same shape.

    JavaScript's "missing" (undefined, null, empty string) is written `""` for
    strings and `0` for heights: the handlers only ever test these fields for
    truthiness, so the two coincide. */
module Formats {
  import opened Text

  /** One entry of `info.formats`, as ytdl-core reports it (or as the yt-dlp
      adapter builds it). `acodec` and `vcodec` are the codec fields that the
      HEAD handler also accepts as evidence of a muxed stream. */
  datatype MediaFormat = MediaFormat(
    itag: string,
    url: string,
    mimeType: string,
    qualityLabel: string,
    height: nat,
    hasAudio: bool,
    hasVideo: bool,
    acodec: string,
    vcodec: string)

  /** The part of a ytdl-core info object the handlers read:
      `videoDetails.title`, the urls of `videoDetails.thumbnails`,
      `thumbnail_url` and `formats`. */
  datatype Info = Info(title: string, thumbnails: seq<string>, thumbnailUrl: string, formats: seq<MediaFormat>)

  /** The minimal info structure of the terminal fallback. */
  const EmptyInfo := Info("", [], "", [])

  /** One element of `json.formats` in the yt-dlp dump. */
  datatype DumpFormat = DumpFormat(
    formatId: string,
    url: string,
    ext: string,
    formatNote: string,
    height: nat,
    audioChannels: nat,
    asr: nat)

  /** The parsed `yt-dlp -J` dump; `None` stands for a field that is not an array. */
  datatype Dump = Dump(title: string, thumbnails: Option<seq<string>>, formats: Option<seq<DumpFormat>>)

  import opened Wrappers

  /** `${height}p`, the label used for a format that reports no quality label. */
  function HeightLabel(height: nat): string
  {
    NatToString(height) + "p"
  }

  /** The leading integer of `${height}p` is the height. */
  lemma HeightLabelKey(height: nat)
    ensures ParseInt(HeightLabel(height)) == Some(height)
  {
    ParseIntOfHeightLabel(height, "p");
  }

  /** Two heights get the same synthesised label only if they are equal. */
  lemma HeightLabelInjective(a: nat, b: nat)
    requires HeightLabel(a) == HeightLabel(b)
    ensures a == b
  {
    var la, lb := HeightLabel(a), HeightLabel(b);
    assert la[..|la| - 1] == NatToString(a);
    assert lb[..|lb| - 1] == NatToString(b);
    NatToStringInjective(a, b);
  }

  /** The per-format adapter of the yt-dlp dump. */
  function AdaptFormat(f: DumpFormat): (r: MediaFormat)
    ensures r.itag == f.formatId && r.url == f.url && r.height == f.height
    ensures r.hasVideo <==> f.height != 0
    ensures r.hasAudio <==> f.audioChannels != 0 || f.asr != 0
    ensures r.mimeType != "" <==> f.ext != ""
    ensures r.mimeType != "" ==> r.mimeType == "video/" + f.ext
    ensures f.formatNote != "" ==> r.qualityLabel == f.formatNote
    ensures f.formatNote == "" && f.height != 0 ==> r.qualityLabel == HeightLabel(f.height)
    ensures r.qualityLabel == "" <==> f.formatNote == "" && f.height == 0
    ensures r.acodec == "" && r.vcodec == ""
  {
    MediaFormat(
      itag := f.formatId,
      url := f.url,
      mimeType := if f.ext != "" then "video/" + f.ext else "",
      qualityLabel := if f.formatNote != "" then f.formatNote else if f.height != 0 then HeightLabel(f.height) else "",
      height := f.height,
      hasAudio := f.audioChannels != 0 || f.asr != 0,
      hasVideo := f.height != 0,
      acodec := "",
      vcodec := "")
  }

  /** `Array.isArray(json.formats) ? json.formats.map(adapter) : []`. */
  function AdaptFormats(formats: Option<seq<DumpFormat>>): (r: seq<MediaFormat>)
    ensures formats.None? ==> r == []
    ensures formats.Some? ==> |r| == |formats.value|
    ensures formats.Some? ==> forall i :: 0 <= i < |r| ==> r[i] == AdaptFormat(formats.value[i])
  {
    match formats
    case None => []
    case Some(fs) => seq(|fs|, i requires 0 <= i < |fs| => AdaptFormat(fs[i]))
  }

  /** The info-like object the metadata chain builds from a dump. */
  function AdaptDump(d: Dump): (r: Info)
    ensures r.title == d.title && r.thumbnailUrl == ""
    ensures r.thumbnails == d.thumbnails.GetOr([])
    ensures r.formats == AdaptFormats(d.formats)
  {
    Info(d.title, d.thumbnails.GetOr([]), "", AdaptFormats(d.formats))
  }
}
