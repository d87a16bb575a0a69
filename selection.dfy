/** The format decisions of the download route: the HEAD classifier, the
    muxed pick of the video GET path, the audio fast-path pick, the video-only
    filter of the merge path and the yt-dlp `-f` selector. */
module Selection {
  import opened Wrappers
  import opened Text
  import opened Formats
  import Seqs

  /** The requested format: `searchParams.get("format") || "best"` is never empty. */
  type Token = s: string | s != "" witness "best"

  function TokenOf(param: string): (t: Token)
    ensures param != "" ==> t == param
    ensures param == "" ==> t == "best"
  {
    if param != "" then param else "best"
  }

  /** `format.startsWith("audio")`. */
  predicate IsAudioToken(t: Token)
    ensures IsAudioToken(t) <==> |t| >= 5 && t[..5] == "audio"
  {
    StartsWith(t, "audio")
  }

  /** `parseInt(format.replace(/[^0-9]/g, ""), 10)`: every digit of the token,
      concatenated, read as one number; `None` (NaN) when the token has no
      digit. */
  function RequestedHeight(t: string): (h: Option<nat>)
    ensures h.None? <==> forall c :: c in t ==> !IsDigit(c)
  {
    var d := DigitsOf(t);
    DigitsOfMembers(t);
    if d == "" then None
    else
      assert d[0] in d;
      Some(DecimalValue(d))
  }

  /** With radix 10 on a digit-only string, `parseInt` reads the whole string,
      so the requested height is `parseInt` of the digits. */
  lemma RequestedHeightIsParseInt(t: string)
    ensures RequestedHeight(t) == match ParseInt(DigitsOf(t)) case None => None case Some(v) => Some(v as nat)
  {
    var d := DigitsOf(t);
    if d != "" {
      ParseIntOfDigits(d, "");
      assert d + "" == d;
    }
  }

  /** Digits are concatenated, not cut at the first non-digit: for
      `1080p60` the requested height is 108060, not 1080. */
  lemma RequestedHeightConcatenatesDigits(x: string, sep: string, y: string)
    requires x != "" && AllDigits(x) && AllDigits(y)
    requires forall i :: 0 <= i < |sep| ==> !IsDigit(sep[i])
    ensures AllDigits(x + y) && RequestedHeight(x + sep + y) == Some(DecimalValue(x + y))
  {
    AllDigitsAppend(x, y);
    var xs := x + sep;
    DigitsOfAppend(x, sep);
    DigitsOfDigits(x);
    NoDigits(sep);
    assert DigitsOf(xs) == x;
    DigitsOfAppend(xs, y);
    DigitsOfDigits(y);
    assert DigitsOf(xs + y) == x + y;
    assert x + sep + y == xs + y;
  }

  // ----- HEAD: which strategy would be used -----

  datatype Mode = AudioMode | MuxedMode | MergeMode | Unavailable

  /** The format HEAD accepts as muxed: exact label, and audio+video flags or
      both codec fields. */
  predicate HeadMuxed(t: Token, f: MediaFormat)
  {
    f.qualityLabel == t && ((f.hasAudio && f.hasVideo) || (f.acodec != "" && f.vcodec != ""))
  }

  function HeadMuxedP(t: Token): MediaFormat -> bool
  {
    f => HeadMuxed(t, f)
  }

  /** A video format at or below height `h`; with no height, a label that
      contains the token. */
  predicate FitsHeight(t: Token, h: nat, f: MediaFormat)
  {
    (f.hasVideo || f.height != 0) &&
    (if f.height != 0 then f.height <= h else Contains(f.qualityLabel, t))
  }

  function FitsHeightP(t: Token, h: nat): MediaFormat -> bool
  {
    f => FitsHeight(t, h, f)
  }

  /** `hasVideoOnly` of the HEAD handler. */
  predicate MergeableHeight(t: Token, formats: seq<MediaFormat>)
  {
    RequestedHeight(t).Some? && Seqs.Any(formats, FitsHeightP(t, RequestedHeight(t).value))
  }

  /** The `X-Mode` HEAD reports, or 422. */
  function HeadMode(t: Token, formats: seq<MediaFormat>): (m: Mode)
    ensures m == AudioMode <==> IsAudioToken(t)
    ensures m == MuxedMode <==> !IsAudioToken(t) && exists i :: 0 <= i < |formats| && HeadMuxed(t, formats[i])
    ensures m == MergeMode <==>
              !IsAudioToken(t) && (forall i :: 0 <= i < |formats| ==> !HeadMuxed(t, formats[i])) &&
              (t == "best" || MergeableHeight(t, formats))
    ensures m == Unavailable ==> t != "best"
  {
    if IsAudioToken(t) then AudioMode
    else if Seqs.Find(formats, HeadMuxedP(t)).Some? then MuxedMode
    else if MergeableHeight(t, formats) || t == "best" then MergeMode
    else Unavailable
  }

  /** An audio token is answered `audio` whatever the formats are. */
  lemma HeadAudioIgnoresFormats(t: Token, a: seq<MediaFormat>, b: seq<MediaFormat>)
    requires IsAudioToken(t)
    ensures HeadMode(t, a) == HeadMode(t, b) == AudioMode
  {
  }

  /** Listing more formats never turns an available token into 422, and never
      demotes `muxed`. */
  lemma HeadMonotone(t: Token, formats: seq<MediaFormat>, more: seq<MediaFormat>)
    ensures HeadMode(t, formats) != Unavailable ==> HeadMode(t, formats + more) != Unavailable
    ensures HeadMode(t, formats) == MuxedMode ==> HeadMode(t, formats + more) == MuxedMode
  {
    var all := formats + more;
    if HeadMode(t, formats) == MuxedMode {
      var i :| 0 <= i < |formats| && HeadMuxed(t, formats[i]);
      assert all[i] == formats[i];
    }
    if HeadMode(t, formats) == MergeMode && t != "best" {
      var h := RequestedHeight(t).value;
      var i :| 0 <= i < |formats| && FitsHeightP(t, h)(formats[i]);
      assert all[i] == formats[i];
      assert Seqs.Any(all, FitsHeightP(t, h));
    }
  }

  /** A `merge` answer for a token other than `best` is backed by a video
      format within the requested height. */
  lemma HeadMergeIsBacked(t: Token, formats: seq<MediaFormat>)
    requires HeadMode(t, formats) == MergeMode && t != "best"
    ensures RequestedHeight(t).Some?
    ensures exists i :: 0 <= i < |formats| && FitsHeight(t, RequestedHeight(t).value, formats[i])
  {
    var h := RequestedHeight(t).value;
    var i :| 0 <= i < |formats| && FitsHeightP(t, h)(formats[i]);
  }

  // ----- GET, video: the muxed pick -----

  /** `f.hasAudio && f.hasVideo`. */
  predicate IsMuxed(f: MediaFormat)
  {
    f.hasAudio && f.hasVideo
  }

  predicate ExactMuxed(t: Token, f: MediaFormat)
  {
    f.qualityLabel == t && IsMuxed(f)
  }

  predicate LabelHasMuxed(t: Token, f: MediaFormat)
  {
    IsMuxed(f) && Contains(f.qualityLabel, t)
  }

  function ExactMuxedP(t: Token): MediaFormat -> bool { f => ExactMuxed(t, f) }

  function LabelHasMuxedP(t: Token): MediaFormat -> bool { f => LabelHasMuxed(t, f) }

  function IsMuxedP(): MediaFormat -> bool { f => IsMuxed(f) }

  /** The rule the muxed pick falls back to when no label matches exactly. */
  function FallbackP(t: Token): MediaFormat -> bool
  {
    if t == "best" then IsMuxedP() else LabelHasMuxedP(t)
  }

  /** The muxed target of the video GET path: the first format with the
      exact label; failing that, for `best` the first muxed format, and for
      any other token the first muxed format whose label contains it. */
  function MuxedPick(t: Token, formats: seq<MediaFormat>): (r: Option<MediaFormat>)
    ensures r.Some? ==> r.value in formats && IsMuxed(r.value)
    ensures r.Some? && t != "best" ==> Contains(r.value.qualityLabel, t)
    ensures r.Some? && r.value.qualityLabel != t ==> forall i :: 0 <= i < |formats| ==> !ExactMuxed(t, formats[i])
    ensures r.None? <==> forall i :: 0 <= i < |formats| ==> !FallbackP(t)(formats[i])
  {
    match Seqs.Find(formats, ExactMuxedP(t))
    case Some(f) =>
      ContainsSelf(f.qualityLabel);
      Some(f)
    case None =>
      Seqs.Find(formats, FallbackP(t))
  }

  /** The first format with the exact label and both tracks is the pick. */
  lemma MuxedPickPrefersExact(t: Token, formats: seq<MediaFormat>, i: nat)
    requires i < |formats| && ExactMuxed(t, formats[i])
    requires forall j :: 0 <= j < i ==> !ExactMuxed(t, formats[j])
    ensures MuxedPick(t, formats) == Some(formats[i])
  {
    Seqs.FindIsFirst(formats, ExactMuxedP(t), i);
  }

  /** With no exact label, the first format that the fallback rule accepts
      is the pick. */
  lemma MuxedPickFallback(t: Token, formats: seq<MediaFormat>, i: nat)
    requires forall j :: 0 <= j < |formats| ==> !ExactMuxed(t, formats[j])
    requires i < |formats| && FallbackP(t)(formats[i])
    requires forall j :: 0 <= j < i ==> !FallbackP(t)(formats[j])
    ensures MuxedPick(t, formats) == Some(formats[i])
  {
    assert Seqs.Find(formats, ExactMuxedP(t)).None?;
    Seqs.FindIsFirst(formats, FallbackP(t), i);
  }

  /** When HEAD answers `muxed` on the strength of the audio and video flags,
      the GET path finds a muxed format with that very label. */
  lemma HeadMuxedAgreesWithGet(t: Token, formats: seq<MediaFormat>, i: nat)
    requires i < |formats| && ExactMuxed(t, formats[i])
    ensures HeadMode(t, formats) == MuxedMode || IsAudioToken(t)
    ensures MuxedPick(t, formats).Some? && MuxedPick(t, formats).value.qualityLabel == t
  {
    assert HeadMuxed(t, formats[i]);
    assert ExactMuxedP(t)(formats[i]);
    var k := Seqs.FirstIndex(formats, ExactMuxedP(t));
    assert k.Some?;
  }

  // ----- GET, audio: the subformat and the fast-path pick -----

  /** `format.split(":")[1]`, `None` when there is no second piece (undefined). */
  function RawSubFormat(t: string): (fmt: Option<string>)
    ensures fmt.None? <==> ':' !in t
    ensures fmt.Some? ==> ':' !in fmt.value
  {
    var parts := Split(t, ':');
    SplitJoinRoundTrip(t, ':');
    match IndexOf(t, ':')
    case None =>
      SplitSingle(t, ':');
      None
    case Some(i) =>
      assert |parts| >= 2 by {
        SplitAt(t, ':', i);
      }
      Some(parts[1])
  }

  /** The second piece of `split(":")` is whatever lies between the first
      colon and the next one (or the end), possibly empty: `audio::mp3`
      gives `""`, `audio:mp3:x` gives `mp3`. */
  lemma RawSubFormatOfToken(head: string, sub: string, rest: string)
    requires ':' !in head && ':' !in sub
    requires rest == "" || rest[0] == ':'
    ensures RawSubFormat(head + ":" + sub + rest) == Some(sub)
  {
    var t, tail := head + ":" + sub + rest, sub + rest;
    assert t == head + [':'] + tail;
    SplitAfterPiece(head, ':', tail);
    SplitHead(sub, ':', rest);
    assert ':' in t by { assert t[|head|] == ':'; }
  }

  /** `fmt || "m4a"`. */
  function SubFormat(t: string): (sub: string)
    ensures sub != ""
    ensures RawSubFormat(t).Some? && RawSubFormat(t).value != "" ==> sub == RawSubFormat(t).value
    ensures RawSubFormat(t).None? || RawSubFormat(t) == Some("") ==> sub == "m4a"
  {
    match RawSubFormat(t)
    case Some(s) => if s != "" then s else "m4a"
    case None => "m4a"
  }

  /** `audio:<sub>`, possibly followed by further `:` pieces, selects `<sub>`. */
  lemma SubFormatOfToken(head: string, sub: string, rest: string)
    requires ':' !in head && ':' !in sub && sub != ""
    requires rest == "" || rest[0] == ':'
    ensures SubFormat(head + ":" + sub + rest) == sub
  {
    RawSubFormatOfToken(head, sub, rest);
  }

  /** A token without a colon (`audio`) or with nothing after it (`audio:`)
      gets the default `m4a`. */
  lemma SubFormatDefault(t: string)
    requires ':' !in t || (t != "" && t[|t| - 1] == ':' && ':' !in t[..|t| - 1])
    ensures SubFormat(t) == "m4a"
  {
    if ':' in t {
      var head := t[..|t| - 1];
      assert t == head + [':'] + "";
      SplitAfterPiece(head, ':', "");
      SplitSingle("", ':');
    }
  }

  predicate AudioOnly(f: MediaFormat)
  {
    f.hasAudio && !f.hasVideo
  }

  predicate M4aCandidate(f: MediaFormat)
  {
    AudioOnly(f) && (Contains(f.mimeType, "audio/mp4") || Contains(f.mimeType, "m4a")) && f.url != ""
  }

  predicate OpusCandidate(f: MediaFormat)
  {
    AudioOnly(f) && (Contains(f.mimeType, "audio/webm") || Contains(f.mimeType, "opus")) && f.url != ""
  }

  function M4aP(): MediaFormat -> bool { f => M4aCandidate(f) }

  function OpusP(): MediaFormat -> bool { f => OpusCandidate(f) }

  /** The fast-path target of the audio GET path. */
  function AudioFastPick(t: string, formats: seq<MediaFormat>): (r: Option<MediaFormat>)
    ensures r.Some? ==> r.value in formats && AudioOnly(r.value) && r.value.url != ""
    ensures r.Some? ==> SubFormat(t) == "m4a" || SubFormat(t) == "opus"
    ensures r.Some? && SubFormat(t) == "m4a" ==> M4aCandidate(r.value)
    ensures r.Some? && SubFormat(t) == "opus" ==> OpusCandidate(r.value)
    ensures r.None? && SubFormat(t) == "m4a" ==> forall i :: 0 <= i < |formats| ==> !M4aCandidate(formats[i])
    ensures r.None? && SubFormat(t) == "opus" ==> forall i :: 0 <= i < |formats| ==> !OpusCandidate(formats[i])
  {
    if SubFormat(t) == "m4a" then Seqs.Find(formats, M4aP())
    else if RawSubFormat(t) == Some("opus") then Seqs.Find(formats, OpusP())
    else None
  }

  /** The first candidate in list order is the fast-path target. */
  lemma AudioFastPickFirst(t: string, formats: seq<MediaFormat>, i: nat)
    requires SubFormat(t) == "m4a" || SubFormat(t) == "opus"
    requires i < |formats|
    requires var p := if SubFormat(t) == "m4a" then M4aP() else OpusP();
             p(formats[i]) && forall j :: 0 <= j < i ==> !p(formats[j])
    ensures AudioFastPick(t, formats) == Some(formats[i])
  {
    if SubFormat(t) == "m4a" {
      Seqs.FindIsFirst(formats, M4aP(), i);
    } else {
      Seqs.FindIsFirst(formats, OpusP(), i);
    }
  }

  // ----- GET, video merge: the video-only filter and the yt-dlp selector -----

  /** The ytdl-core filter of the merge path: video only, and, when the token
      has digits, a height at or below them, a missing height counting as 0. */
  predicate MergeVideoCandidate(h: Option<nat>, f: MediaFormat)
  {
    f.hasVideo && !f.hasAudio && (h.None? || f.height <= h.value)
  }

  function MergeVideoCandidates(t: Token, formats: seq<MediaFormat>): (r: seq<MediaFormat>)
    ensures forall f :: f in r <==> f in formats && MergeVideoCandidate(RequestedHeight(t), f)
  {
    if formats == [] then []
    else
      (if MergeVideoCandidate(RequestedHeight(t), formats[0]) then [formats[0]] else []) +
      MergeVideoCandidates(t, formats[1..])
  }

  /** Every merge candidate is a video-only stream within the requested height. */
  lemma MergeCandidatesWithinHeight(t: Token, formats: seq<MediaFormat>, f: MediaFormat)
    requires f in MergeVideoCandidates(t, formats)
    ensures f.hasVideo && !f.hasAudio
    ensures RequestedHeight(t).Some? ==> f.height <= RequestedHeight(t).value
  {
  }

  /** A video-only format that reports no height is never filtered out. */
  lemma MissingHeightAlwaysMergeable(t: Token, formats: seq<MediaFormat>, f: MediaFormat)
    requires f in formats && f.hasVideo && !f.hasAudio && f.height == 0
    ensures f in MergeVideoCandidates(t, formats)
  {
  }

  /** `-f` for the yt-dlp merge fallback. */
  function YtDlpQuery(h: Option<nat>): (q: string)
    ensures h.None? ==> q == "bestvideo+bestaudio/best"
    ensures h.Some? ==> |q| >= 18 && q[..18] == "bestvideo[height<=" && TakeWhile(q[18..], IsDigit) == NatToString(h.value)
    ensures h.Some? ==> var cap := "best[height<=" + NatToString(h.value) + "]"; |q| >= |cap| && q[|q| - |cap|..] == cap
    ensures h.Some? ==> var sn := NatToString(h.value);
              |q| == 44 + 2 * |sn| && q[18..18 + |sn|] == sn && q[18 + |sn|..30 + |sn|] == "]+bestaudio/"
  {
    match h
    case None => "bestvideo+bestaudio/best"
    case Some(n) =>
      var sn := NatToString(n);
      SelectorStartsWithBound(sn);
      SelectorEndsWithCap(sn);
      SelectorMiddle(sn);
      "bestvideo[height<=" + sn + "]+bestaudio/" + ("best[height<=" + sn + "]")
  }

  /** The bounded selector starts with the video cap, whose digits can be
      read back. */
  lemma SelectorStartsWithBound(sn: string)
    requires AllDigits(sn)
    ensures var q := "bestvideo[height<=" + sn + "]+bestaudio/" + ("best[height<=" + sn + "]");
            |q| >= 18 && q[..18] == "bestvideo[height<=" && TakeWhile(q[18..], IsDigit) == sn
  {
    var p, rest := "bestvideo[height<=", "]+bestaudio/" + ("best[height<=" + sn + "]");
    var q := p + sn + rest;
    assert |p| == 18;
    assert q == p + (sn + rest);
    assert q[..18] == p;
    assert q[18..] == sn + rest;
    assert rest[0] == ']';
    TakeWhileOfPrefix(sn, rest);
    assert "bestvideo[height<=" + sn + "]+bestaudio/" + ("best[height<=" + sn + "]") == q;
  }

  /** Between the video cap and the fallback cap, the bounded selector adds
      the best audio track. */
  lemma SelectorMiddle(sn: string)
    ensures var q := "bestvideo[height<=" + sn + "]+bestaudio/" + ("best[height<=" + sn + "]");
            |q| == 44 + 2 * |sn| && q[18..18 + |sn|] == sn && q[18 + |sn|..30 + |sn|] == "]+bestaudio/"
  {
    var p, mid, cap := "bestvideo[height<=", "]+bestaudio/", "best[height<=" + sn + "]";
    var q := p + sn + mid + cap;
    assert |p| == 18 && |mid| == 12 && |cap| == 14 + |sn|;
    assert q == (p + sn + mid) + cap;
    assert q[18..18 + |sn|] == (p + sn)[18..];
    assert q[18 + |sn|..30 + |sn|] == (p + sn + mid)[18 + |sn|..];
  }

  /** The bounded selector ends with the cap of the single-file fallback. */
  lemma SelectorEndsWithCap(sn: string)
    ensures var q, cap := "bestvideo[height<=" + sn + "]+bestaudio/" + ("best[height<=" + sn + "]"), "best[height<=" + sn + "]";
            |q| >= |cap| && q[|q| - |cap|..] == cap
  {
  }

  /** The selector determines the height bound it was built from: different
      bounds (or a bound and none) give different selectors. */
  lemma YtDlpQueryInjective(a: Option<nat>, b: Option<nat>)
    requires YtDlpQuery(a) == YtDlpQuery(b)
    ensures a == b
  {
    if a.Some? && b.Some? {
      assert NatToString(a.value) == NatToString(b.value) by {
        var qa, qb := YtDlpQuery(a), YtDlpQuery(b);
        assert qa[18..] == qb[18..];
      }
      NatToStringInjective(a.value, b.value);
    } else if a.Some? {
      QueryWithBoundHasBracket(a.value);
    } else if b.Some? {
      QueryWithBoundHasBracket(b.value);
    }
  }

  /** A bounded selector differs from the unbounded one at index 9. */
  lemma QueryWithBoundHasBracket(n: nat)
    ensures YtDlpQuery(Some(n)) != YtDlpQuery(None)
  {
    var q := YtDlpQuery(Some(n));
    assert q[9] == q[..18][9] == '[';
    assert YtDlpQuery(None)[9] == '+';
  }
}
