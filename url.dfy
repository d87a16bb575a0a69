/** The URL normaliser of the download route: short links, Shorts pages and
    watch pages are rewritten to the canonical watch URL; every other input is
    passed through, and an empty input yields no URL at all. */
module UrlNormalizer {
  import opened Wrappers
  import opened Text
  import Seqs

  /** What the WHATWG `URL` parser exposes to the normaliser: the host name,
      the path and the decoded query pairs in order. */
  datatype ParsedUrl = ParsedUrl(hostname: string, pathname: string, query: seq<(string, string)>)

  /** `searchParams.get(name)`: the value of the first pair with that name;
      `""` when there is none (JavaScript's null, which is falsy like `""`). */
  function QueryGet(query: seq<(string, string)>, name: string): (r: string)
    ensures (exists i :: 0 <= i < |query| && query[i].0 == name && query[i].1 == r &&
              forall j :: 0 <= j < i ==> query[j].0 != name) ||
            (r == "" && forall j :: 0 <= j < |query| ==> query[j].0 != name)
  {
    match Seqs.FirstIndex(query, (p: (string, string)) => p.0 == name)
    case None => ""
    case Some(i) => query[i].1
  }

  const WatchPrefix := "https://www.youtube.com/watch?v="

  /** The canonical watch URL of a video id. */
  function Canonical(id: string): (r: string)
    ensures StartsWith(r, WatchPrefix) && r[|WatchPrefix|..] == id
  {
    WatchPrefix + id
  }

  /** `pathname.split("/")[2]` for a path that starts with `/shorts/`: the
      segment after `/shorts/`, up to the next slash. */
  function ShortsId(pathname: string): (id: string)
    requires StartsWith(pathname, "/shorts/")
    ensures '/' !in id
    ensures id == Split(pathname[8..], '/')[0]
  {
    ShortsSplit(pathname);
    SplitJoinRoundTrip(pathname[8..], '/');
    Split(pathname, '/')[2]
  }

  /** The third piece of a `/shorts/` path is the first piece after the prefix. */
  lemma ShortsSplit(pathname: string)
    requires StartsWith(pathname, "/shorts/")
    ensures |Split(pathname, '/')| >= 3 && Split(pathname, '/')[2] == Split(pathname[8..], '/')[0]
  {
    var p1 := pathname[1..];
    assert pathname[0] == '/' && p1[6] == '/' && '/' !in p1[..6] by {
      var prefix := pathname[..8];
      assert prefix == "/shorts/";
      assert pathname[0] == prefix[0] && p1[6] == prefix[7];
      assert p1[..6] == prefix[1..7];
    }
    assert p1[7..] == pathname[8..];
    SplitAt(pathname, '/', 0);
    SplitAt(p1, '/', 6);
  }

  /** `normalizeUrl(raw)`, with `parse` standing for `new URL(...)`; `None`
      from `parse` is a thrown exception. */
  function NormalizeUrl(raw: string, parse: string -> Option<ParsedUrl>): (r: Option<string>)
    ensures r.None? <==> raw == ""
    ensures r.Some? ==> r.value == raw || StartsWith(r.value, WatchPrefix)
    ensures raw != "" && parse(raw).None? ==> r == Some(raw)
  {
    if raw == "" then None
    else match parse(raw)
      case None => Some(raw)
      case Some(u) =>
        if Contains(u.hostname, "youtu.be") then
          Some(Canonical(RemoveFirst(u.pathname, '/')))
        else if Contains(u.hostname, "youtube.com") && StartsWith(u.pathname, "/shorts/") then
          Some(Canonical(ShortsId(u.pathname)))
        else if Contains(u.hostname, "youtube.com") && u.pathname == "/watch" && QueryGet(u.query, "v") != "" then
          Some(Canonical(QueryGet(u.query, "v")))
        else
          Some(raw)
  }

  /** A URL that is not a recognised YouTube shape comes back unchanged. */
  lemma UnrecognisedPassesThrough(raw: string, parse: string -> Option<ParsedUrl>, u: ParsedUrl)
    requires raw != "" && parse(raw) == Some(u)
    requires !Contains(u.hostname, "youtu.be")
    requires !Contains(u.hostname, "youtube.com") ||
             (!StartsWith(u.pathname, "/shorts/") && (u.pathname != "/watch" || QueryGet(u.query, "v") == ""))
    ensures NormalizeUrl(raw, parse) == Some(raw)
  {
  }

  /** `youtu.be/<id>` becomes the watch URL of `<id>`. */
  lemma ShortLink(raw: string, parse: string -> Option<ParsedUrl>, u: ParsedUrl, id: string)
    requires raw != "" && parse(raw) == Some(u)
    requires Contains(u.hostname, "youtu.be") && u.pathname == "/" + id
    ensures NormalizeUrl(raw, parse) == Some(Canonical(id))
  {
    assert RemoveFirst(u.pathname, '/') == id;
  }

  /** `youtube.com/shorts/<id>[/...]` becomes the watch URL of `<id>`. */
  lemma ShortsLink(raw: string, parse: string -> Option<ParsedUrl>, u: ParsedUrl, id: string, tail: string)
    requires raw != "" && parse(raw) == Some(u)
    requires !Contains(u.hostname, "youtu.be") && Contains(u.hostname, "youtube.com")
    requires '/' !in id && (tail == "" || tail[0] == '/')
    requires u.pathname == "/shorts/" + id + tail
    ensures NormalizeUrl(raw, parse) == Some(Canonical(id))
  {
    assert StartsWith(u.pathname, "/shorts/") by {
      assert u.pathname[..8] == "/shorts/";
    }
    var rest := u.pathname[8..];
    assert rest == id + tail;
    if tail == "" {
      assert rest == id;
      assert Split(rest, '/') == [rest];
    } else {
      assert rest == id + ['/'] + tail[1..];
      SplitAfterPiece(id, '/', tail[1..]);
    }
  }

  /** `youtube.com/watch?...&v=<id>&...` becomes the watch URL of `<id>`: the
      result depends on nothing but the first `v` parameter, so every other
      query parameter is dropped. */
  lemma WatchLink(raw: string, parse: string -> Option<ParsedUrl>, u: ParsedUrl,
                  before: seq<(string, string)>, id: string, after: seq<(string, string)>)
    requires raw != "" && parse(raw) == Some(u)
    requires !Contains(u.hostname, "youtu.be") && Contains(u.hostname, "youtube.com")
    requires u.pathname == "/watch" && id != ""
    requires u.query == before + [("v", id)] + after
    requires forall j :: 0 <= j < |before| ==> before[j].0 != "v"
    ensures NormalizeUrl(raw, parse) == Some(Canonical(id))
  {
    assert !StartsWith(u.pathname, "/shorts/");
    var q := u.query;
    assert q[|before|] == ("v", id);
    forall j | 0 <= j < |before| ensures q[j].0 != "v" {
      assert q[j] == before[j];
    }
    Seqs.FindIsFirst(q, (p: (string, string)) => p.0 == "v", |before|);
  }

  /** The canonical watch URL is a fixed point whenever the URL parser reads it
      back as host `www.youtube.com`, path `/watch` and `v` = the id (or fails). */
  lemma CanonicalIsFixedPoint(id: string, parse: string -> Option<ParsedUrl>)
    requires parse(Canonical(id)).None? ||
             parse(Canonical(id)) == Some(ParsedUrl("www.youtube.com", "/watch", [("v", id)]))
    ensures NormalizeUrl(Canonical(id), parse) == Some(Canonical(id))
  {
    CanonicalHost();
    var u := ParsedUrl("www.youtube.com", "/watch", [("v", id)]);
    assert !StartsWith(u.pathname, "/shorts/");
    if id != "" {
      assert QueryGet(u.query, "v") == id;
    }
  }

  /** The host of the canonical URL is a `youtube.com` host and no `youtu.be` host. */
  lemma CanonicalHost()
    ensures !Contains("www.youtube.com", "youtu.be")
    ensures Contains("www.youtube.com", "youtube.com")
  {
    HostFacts("www.youtube.com", "youtu.be", "youtube.com");
  }

  /** The two host tests, on the literal host passed in as a variable. */
  lemma HostFacts(host: string, short: string, long: string)
    requires host == "www.youtube.com" && short == "youtu.be" && long == "youtube.com"
    ensures !Contains(host, short) && Contains(host, long)
  {
    NoShortHost(host, short);
    LongHost(host, long);
  }

  lemma NoShortHost(host: string, short: string)
    requires host == "www.youtube.com" && short == "youtu.be"
    ensures !Contains(host, short)
  {
    ContainsIsOccurrence(host, short);
    forall i | 0 <= i <= |host| - |short| ensures !OccursAt(host, short, i) {
      var k := if i == 4 then 5 else 0;
      assert host[i + k] != short[k];
      assert host[i..i + |short|][k] == host[i + k];
    }
  }

  lemma LongHost(host: string, long: string)
    requires host == "www.youtube.com" && long == "youtube.com"
    ensures Contains(host, long)
  {
    ContainsIsOccurrence(host, long);
    assert host[4..] == long;
    assert OccursAt(host, long, 4);
  }
}
