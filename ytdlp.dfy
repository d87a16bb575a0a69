/** Locating the yt-dlp binary (`ensureYtDlp`): an ordered list of candidate
    paths, the first one that exists as a regular file, else a fresh download
    into the cache directory. The filesystem test and the download are
    parameters. */
module YtDlpBinary {
  import opened Wrappers
  import Seqs

  /** Where the search looks: `YTDLP_PATH` ("" when unset), whether the
      platform is Windows, `node_modules/.bin` under the working directory and
      `yt-dlp` under the OS temporary directory (both already joined). */
  datatype Setup = Setup(envPath: string, isWin: bool, binDir: string, cacheDir: string)

  /** The executable names tried in each directory. */
  function BinNames(isWin: bool): (names: seq<string>)
    ensures |names| == if isWin then 2 else 1
    ensures names[0] == if isWin then "yt-dlp.exe" else "yt-dlp"
    ensures isWin ==> names[1] == "yt-dlp"
  {
    if isWin then ["yt-dlp.exe", "yt-dlp"] else ["yt-dlp"]
  }

  /** Number of leading entries taken by `YTDLP_PATH`. */
  function EnvCount(s: Setup): nat
  {
    if s.envPath != "" then 1 else 0
  }

  /** Reference order of the candidates: the override, then every name in
      `binDir`, then every name in `cacheDir`. */
  function CandidateOrder(s: Setup, join: (string, string) -> string): seq<string>
  {
    var names := BinNames(s.isWin);
    (if s.envPath != "" then [s.envPath] else []) +
    seq(|names|, i requires 0 <= i < |names| => join(s.binDir, names[i])) +
    seq(|names|, i requires 0 <= i < |names| => join(s.cacheDir, names[i]))
  }

  /** Where a missing binary is downloaded to. */
  function DownloadTarget(s: Setup, join: (string, string) -> string): string
  {
    join(s.cacheDir, BinNames(s.isWin)[0])
  }

  /** The binary `ensureYtDlp` settles on: the first existing candidate, or
      the download target when the download succeeds; `None` when it throws. */
  function Located(s: Setup, join: (string, string) -> string, isFile: string -> bool, downloads: bool): (r: Option<string>)
    ensures (exists i :: 0 <= i < |CandidateOrder(s, join)| && isFile(CandidateOrder(s, join)[i])) ==>
              r.Some? && isFile(r.value)
    ensures r.Some? && !isFile(r.value) ==>
              downloads && r.value == DownloadTarget(s, join) &&
              forall i :: 0 <= i < |CandidateOrder(s, join)| ==> !isFile(CandidateOrder(s, join)[i])
  {
    match Seqs.Find(CandidateOrder(s, join), isFile)
    case Some(p) => Some(p)
    case None => if downloads then Some(DownloadTarget(s, join)) else None
  }

  /** Lines 102-113: the candidates pushed one by one. */
  method Candidates(s: Setup, join: (string, string) -> string) returns (candidates: seq<string>)
    ensures candidates == CandidateOrder(s, join)
    ensures |candidates| == EnvCount(s) + 2 * |BinNames(s.isWin)|
    ensures s.envPath != "" ==> candidates[0] == s.envPath
    ensures forall i :: 0 <= i < |BinNames(s.isWin)| ==>
              candidates[EnvCount(s) + i] == join(s.binDir, BinNames(s.isWin)[i])
    ensures forall i :: 0 <= i < |BinNames(s.isWin)| ==>
              candidates[EnvCount(s) + |BinNames(s.isWin)| + i] == join(s.cacheDir, BinNames(s.isWin)[i])
  {
    var names := BinNames(s.isWin);
    candidates := [];
    if s.envPath != "" {
      candidates := candidates + [s.envPath];
    }
    var head := candidates;
    for k := 0 to |names|
      invariant candidates == head + seq(k, i requires 0 <= i < k => join(s.binDir, names[i]))
    {
      candidates := candidates + [join(s.binDir, names[k])];
    }
    var middle := candidates;
    for k := 0 to |names|
      invariant candidates == middle + seq(k, i requires 0 <= i < k => join(s.cacheDir, names[i]))
    {
      candidates := candidates + [join(s.cacheDir, names[k])];
    }
  }

  /** Lines 115-120: scan the candidates in order and stop at the first
      regular file; a failing `statSync` counts as "not a file". */
  method FirstExisting(candidates: seq<string>, isFile: string -> bool) returns (found: Option<string>)
    ensures found == Seqs.Find(candidates, isFile)
  {
    found := None;
    var i := 0;
    while i < |candidates|
      invariant 0 <= i <= |candidates|
      invariant found == None
      invariant forall j :: 0 <= j < i ==> !isFile(candidates[j])
    {
      if isFile(candidates[i]) {
        found := Some(candidates[i]);
        Seqs.FindIsFirst(candidates, isFile, i);
        break;
      }
      i := i + 1;
    }
  }

  /** `ensureYtDlp`, with the download reported as succeeding or throwing. */
  method EnsureYtDlp(s: Setup, join: (string, string) -> string, isFile: string -> bool, downloads: bool)
    returns (binary: Option<string>)
    ensures binary == Located(s, join, isFile, downloads)
  {
    var candidates := Candidates(s, join);
    binary := FirstExisting(candidates, isFile);
    if binary.None? && downloads {
      binary := Some(DownloadTarget(s, join));
    }
  }

  /** A set `YTDLP_PATH` that names a regular file always wins. */
  lemma EnvPathWins(s: Setup, join: (string, string) -> string, isFile: string -> bool, downloads: bool)
    requires s.envPath != "" && isFile(s.envPath)
    ensures Located(s, join, isFile, downloads) == Some(s.envPath)
  {
    Seqs.FindIsFirst(CandidateOrder(s, join), isFile, 0);
  }

  /** The download target is itself a candidate, so once downloaded it is
      found by the next search without another download. */
  lemma DownloadTargetIsCandidate(s: Setup, join: (string, string) -> string)
    ensures DownloadTarget(s, join) in CandidateOrder(s, join)
  {
    var c := CandidateOrder(s, join);
    var names := BinNames(s.isWin);
    assert c[EnvCount(s) + |names|] == join(s.cacheDir, names[0]);
  }

  /** After a successful download, the search finds a binary whatever else
      exists, and the chosen binary is always an existing candidate or the
      download target. */
  lemma LocatedIsCandidate(s: Setup, join: (string, string) -> string, isFile: string -> bool, downloads: bool)
    ensures Located(s, join, isFile, downloads).Some? <==>
              downloads || exists i :: 0 <= i < |CandidateOrder(s, join)| && isFile(CandidateOrder(s, join)[i])
    ensures Located(s, join, isFile, downloads).Some? ==>
              Located(s, join, isFile, downloads).value in CandidateOrder(s, join)
  {
    DownloadTargetIsCandidate(s, join);
  }
}
