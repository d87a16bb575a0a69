/** `qualitiesFromFormats`: the quality labels offered to the user. Every
    format that has video contributes its label (or `${height}p`), each label
    once, in first-seen order; the list is then sorted by leading integer. */
module Qualities {
  import opened Wrappers
  import opened Text
  import opened Formats
  import KeySort

  /** `f.hasVideo || !!f.height`. */
  predicate CountsAsVideo(f: MediaFormat)
  {
    f.hasVideo || f.height != 0
  }

  /** `f.qualityLabel || (f.height ? `${f.height}p` : null)`; `""` is null. */
  function LabelOf(f: MediaFormat): string
  {
    if f.qualityLabel != "" then f.qualityLabel
    else if f.height != 0 then HeightLabel(f.height)
    else ""
  }

  /** `f` puts the label `q` into the set. */
  predicate Offers(f: MediaFormat, q: string)
  {
    CountsAsVideo(f) && LabelOf(f) == q && q != ""
  }

  /** The insertion-ordered `Set` after the loop has seen `fs`. */
  function Collected(fs: seq<MediaFormat>): (c: seq<string>)
    ensures |c| <= |fs|
    ensures forall i :: 0 <= i < |c| ==> c[i] != ""
  {
    if fs == [] then []
    else
      var prev := Collected(fs[..|fs| - 1]);
      var f := fs[|fs| - 1];
      if CountsAsVideo(f) && LabelOf(f) != "" && LabelOf(f) !in prev then prev + [LabelOf(f)] else prev
  }

  /** `parseInt(label)` as the sort key. */
  function LabelKey(s: string): Option<int>
  {
    ParseInt(s)
  }

  /** The sorted array that `qualitiesFromFormats` returns. */
  function Qualities(fs: seq<MediaFormat>): (q: seq<string>)
    ensures multiset(q) == multiset(Collected(fs))
  {
    KeySort.SortByPermutes(LabelKey, Collected(fs));
    KeySort.SortBy(LabelKey, Collected(fs))
  }

  /** `qualitiesFromFormats(formats)`: the `for` loop fills the set, then the
      array is sorted. */
  method QualitiesFromFormats(formats: seq<MediaFormat>) returns (sorted: seq<string>)
    ensures sorted == Qualities(formats)
    ensures forall q :: q in sorted <==> exists i :: 0 <= i < |formats| && Offers(formats[i], q)
    ensures forall q :: multiset(sorted)[q] <= 1
  {
    var seen: seq<string> := [];
    var i := 0;
    while i < |formats|
      invariant 0 <= i <= |formats|
      invariant seen == Collected(formats[..i])
    {
      var f := formats[i];
      var hasVideo := f.hasVideo || f.height != 0;
      assert formats[..i + 1][..i] == formats[..i];
      if hasVideo {
        var quality := if f.qualityLabel != "" then f.qualityLabel else if f.height != 0 then HeightLabel(f.height) else "";
        if quality != "" && quality !in seen {
          seen := seen + [quality];
        }
      }
      i := i + 1;
    }
    assert formats[..|formats|] == formats;
    sorted := KeySort.SortBy(LabelKey, seen);
    QualitiesAreOffered(formats);
    QualitiesDistinct(formats);
  }

  /** A label is in the set exactly when some format with video offers it. */
  lemma {:induction false} CollectedMembers(fs: seq<MediaFormat>, q: string)
    ensures q in Collected(fs) <==> exists i :: 0 <= i < |fs| && Offers(fs[i], q)
  {
    if fs != [] {
      var init := fs[..|fs| - 1];
      CollectedMembers(init, q);
      if exists i :: 0 <= i < |init| && Offers(init[i], q) {
        var i :| 0 <= i < |init| && Offers(init[i], q);
        assert fs[i] == init[i];
      }
      if exists i :: 0 <= i < |fs| && Offers(fs[i], q) {
        var i :| 0 <= i < |fs| && Offers(fs[i], q);
        if i < |init| { assert init[i] == fs[i]; }
      }
    }
  }

  /** No label is put into the set twice. */
  lemma {:induction false} CollectedDistinct(fs: seq<MediaFormat>, q: string)
    ensures multiset(Collected(fs))[q] <= 1
  {
    if fs != [] {
      CollectedDistinct(fs[..|fs| - 1], q);
    }
  }

  /** The set keeps first-seen order: the labels of a prefix of the formats
      come first, in the same order. */
  lemma {:induction false} CollectedPrefix(fs: seq<MediaFormat>, more: seq<MediaFormat>)
    ensures Collected(fs) <= Collected(fs + more)
    decreases |more|
  {
    if more == [] {
      assert fs + more == fs;
    } else {
      var init := more[..|more| - 1];
      CollectedPrefix(fs, init);
      assert (fs + more)[..|fs + more| - 1] == fs + init;
    }
  }

  /** The quality list holds exactly the labels offered by formats with video. */
  lemma QualitiesAreOffered(fs: seq<MediaFormat>)
    ensures forall q :: q in Qualities(fs) <==> exists i :: 0 <= i < |fs| && Offers(fs[i], q)
  {
    KeySort.SortByPermutes(LabelKey, Collected(fs));
    forall q ensures q in Qualities(fs) <==> exists i :: 0 <= i < |fs| && Offers(fs[i], q) {
      CollectedMembers(fs, q);
      assert q in Qualities(fs) <==> q in multiset(Qualities(fs));
    }
  }

  /** No label is listed twice. */
  lemma QualitiesDistinct(fs: seq<MediaFormat>)
    ensures forall q :: multiset(Qualities(fs))[q] <= 1
  {
    KeySort.SortByPermutes(LabelKey, Collected(fs));
    forall q ensures multiset(Qualities(fs))[q] <= 1 {
      CollectedDistinct(fs, q);
    }
  }

  /** When every label starts with an integer, the list is ascending by that
      integer and labels with the same leading integer appear in the order
      their formats were listed. */
  lemma QualitiesOrdered(fs: seq<MediaFormat>, k: int)
    requires KeySort.AllKeyed(LabelKey, Collected(fs))
    ensures KeySort.AllKeyed(LabelKey, Qualities(fs)) && KeySort.Sorted(LabelKey, Qualities(fs))
    ensures KeySort.WithKey(LabelKey, Qualities(fs), k) == KeySort.WithKey(LabelKey, Collected(fs), k)
  {
    KeySort.SortSortedAndStable(LabelKey, Collected(fs), k);
  }

  /** A format without a quality label is listed under `${height}p`, which
      sorts by its height. */
  lemma HeightOnlyFormatListed(fs: seq<MediaFormat>, i: nat)
    requires i < |fs| && fs[i].qualityLabel == "" && fs[i].height != 0
    ensures HeightLabel(fs[i].height) in Qualities(fs)
    ensures LabelKey(HeightLabel(fs[i].height)) == Some(fs[i].height)
  {
    QualitiesAreOffered(fs);
    assert Offers(fs[i], HeightLabel(fs[i].height));
    HeightLabelKey(fs[i].height);
  }

  // ----- the qualities of a yt-dlp dump -----

  /** The label a yt-dlp format is listed under: its format note, else
      `${height}p`. */
  function DumpLabel(f: DumpFormat): string
  {
    if f.formatNote != "" then f.formatNote else HeightLabel(f.height)
  }

  /** An adapted yt-dlp format offers a quality exactly when it has a height,
      and then under its format note or else `${height}p`. */
  lemma AdaptedFormatOffers(f: DumpFormat, q: string)
    ensures Offers(AdaptFormat(f), q) <==> f.height != 0 && q == DumpLabel(f)
  {
    assert |HeightLabel(f.height)| > 0;
  }

  /** The qualities of an adapted dump are the labels of its formats that
      have a height. */
  lemma DumpQualities(fs: seq<DumpFormat>, q: string)
    ensures q in Qualities(AdaptFormats(Some(fs))) <==> exists i :: 0 <= i < |fs| && fs[i].height != 0 && q == DumpLabel(fs[i])
  {
    var adapted := AdaptFormats(Some(fs));
    QualitiesAreOffered(adapted);
    if q in Qualities(adapted) {
      var i :| 0 <= i < |adapted| && Offers(adapted[i], q);
      AdaptedFormatOffers(fs[i], q);
    }
    if exists i :: 0 <= i < |fs| && fs[i].height != 0 && q == DumpLabel(fs[i]) {
      var i :| 0 <= i < |fs| && fs[i].height != 0 && q == DumpLabel(fs[i]);
      AdaptedFormatOffers(fs[i], q);
      assert Offers(adapted[i], q);
    }
  }
}
