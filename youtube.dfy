/** YouTube links: finding the 11-character video id in a URL by the service's two
    patterns (tried in order, each matched at the leftmost place it fits), and the
    summary reply built for a video whose transcript cannot be fetched. */
module YouTube {
  import opened Wrappers
  import opened Text

  /** A video id is exactly this many characters long. */
  const IdLength: nat := 11

  /** `[a-zA-Z0-9_-]`. */
  predicate IsIdChar(c: char) {
    ('a' <= c <= 'z') || ('A' <= c <= 'Z') || ('0' <= c <= '9') || c == '_' || c == '-'
  }

  predicate IsVideoId(id: string) {
    |id| == IdLength && forall k :: 0 <= k < |id| ==> IsIdChar(id[k])
  }

  /** The link forms of the first pattern, in the order its alternatives are tried. */
  const LinkPrefixes: seq<string> := ["youtube.com/watch?v=", "youtu.be/", "youtube.com/embed/"]

  /** The second pattern, tried only when the first finds nothing. */
  const ShortsPrefixes: seq<string> := ["youtube.com/shorts/"]

  /** Eleven id characters start at `i`. */
  predicate IdAt(url: string, i: nat) {
    i + IdLength <= |url| && IsVideoId(url[i..i + IdLength])
  }

  /** The pattern with alternatives `prefixes` matched starting exactly at `p`: the first
      alternative that occurs there with an id right after it gives that id (see
      `MatchAtFits`). */
  function MatchAt(url: string, prefixes: seq<string>, p: nat): (r: Option<string>)
    ensures r.Some? ==> IsVideoId(r.value)
  {
    if prefixes == [] then None
    else
      var q := prefixes[0];
      if OccursAt(url, q, p) && IdAt(url, p + |q|) then Some(url[p + |q|..p + |q| + IdLength])
      else MatchAt(url, prefixes[1..], p)
  }

  /** Some alternative occurs at `p` with an id after it. */
  ghost predicate FitsAt(url: string, prefixes: seq<string>, p: nat, j: nat) {
    j < |prefixes| && OccursAt(url, prefixes[j], p) && IdAt(url, p + |prefixes[j]|)
  }

  /** A match at `p` is the id right after an alternative occurring there, and there is
      one exactly when some alternative fits there. */
  lemma {:induction false} MatchAtFits(url: string, prefixes: seq<string>, p: nat)
    ensures MatchAt(url, prefixes, p).Some? <==> exists j: nat :: FitsAt(url, prefixes, p, j)
    ensures MatchAt(url, prefixes, p).Some? ==>
              exists j: nat :: (FitsAt(url, prefixes, p, j)
                && MatchAt(url, prefixes, p).value == url[p + |prefixes[j]|..p + |prefixes[j]| + IdLength])
  {
    MatchAtGives(url, prefixes, p);
    if MatchAt(url, prefixes, p).Some? {
      var j: nat :| GivesAt(url, prefixes, p, j, MatchAt(url, prefixes, p).value);
      assert FitsAt(url, prefixes, p, j);
    }
    forall j: nat | FitsAt(url, prefixes, p, j) ensures MatchAt(url, prefixes, p).Some? {
      FitMatches(url, prefixes, p, j);
    }
  }

  /** Alternative `j` fits at `p` and the id after it is `id`. */
  ghost predicate GivesAt(url: string, prefixes: seq<string>, p: nat, j: nat, id: string) {
    FitsAt(url, prefixes, p, j) && id == url[p + |prefixes[j]|..p + |prefixes[j]| + IdLength]
  }

  lemma {:induction false} MatchAtGives(url: string, prefixes: seq<string>, p: nat)
    ensures MatchAt(url, prefixes, p).Some? ==>
              exists j: nat :: GivesAt(url, prefixes, p, j, MatchAt(url, prefixes, p).value)
  {
    if prefixes == [] {
    } else if OccursAt(url, prefixes[0], p) && IdAt(url, p + |prefixes[0]|) {
      assert GivesAt(url, prefixes, p, 0, MatchAt(url, prefixes, p).value);
    } else {
      var tail := prefixes[1..];
      MatchAtGives(url, tail, p);
      if MatchAt(url, tail, p).Some? {
        var j: nat :| GivesAt(url, tail, p, j, MatchAt(url, tail, p).value);
        assert tail[j] == prefixes[j + 1];
        assert GivesAt(url, prefixes, p, j + 1, MatchAt(url, prefixes, p).value);
      }
    }
  }

  lemma {:induction false} FitMatches(url: string, prefixes: seq<string>, p: nat, j: nat)
    requires FitsAt(url, prefixes, p, j)
    ensures MatchAt(url, prefixes, p).Some?
    decreases j
  {
    if j > 0 && !(OccursAt(url, prefixes[0], p) && IdAt(url, p + |prefixes[0]|)) {
      var tail := prefixes[1..];
      assert tail[j - 1] == prefixes[j];
      assert FitsAt(url, tail, p, j - 1);
      FitMatches(url, tail, p, j - 1);
    }
  }

  /** `re.search` from position `from` on: the match at the leftmost position where the
      pattern fits, or nothing (see `SearchIsLeftmost`). */
  function Search(url: string, prefixes: seq<string>, from: nat): (r: Option<string>)
    ensures r.Some? ==> IsVideoId(r.value)
    decreases |url| + 1 - from
  {
    if from > |url| then None
    else
      match MatchAt(url, prefixes, from)
      case Some(id) => Some(id)
      case None => Search(url, prefixes, from + 1)
  }

  /** The pattern fits nowhere in `[from, p)`. */
  ghost predicate NoMatchBefore(url: string, prefixes: seq<string>, from: nat, p: nat) {
    forall q :: from <= q < p ==> MatchAt(url, prefixes, q).None?
  }

  /** The search finds the match at the leftmost place the pattern fits, and finds
      nothing only when it fits nowhere. */
  lemma {:induction false} SearchIsLeftmost(url: string, prefixes: seq<string>, from: nat)
    ensures var r := Search(url, prefixes, from);
            r.Some? ==> exists p :: from <= p <= |url| && MatchAt(url, prefixes, p) == r && NoMatchBefore(url, prefixes, from, p)
    ensures Search(url, prefixes, from).None? <==> NoMatchBefore(url, prefixes, from, |url| + 1)
    decreases |url| + 1 - from
  {
    if from <= |url| && MatchAt(url, prefixes, from).None? {
      SearchIsLeftmost(url, prefixes, from + 1);
      var r := Search(url, prefixes, from + 1);
      if r.Some? {
        var p :| from + 1 <= p <= |url| && MatchAt(url, prefixes, p) == r && NoMatchBefore(url, prefixes, from + 1, p);
        assert NoMatchBefore(url, prefixes, from, p);
      }
    }
  }

  /** What `urlparse` and `parse_qs` make of the URL: its host part and its query
      parameters, each with the values it was given. */
  datatype ParsedUrl = ParsedUrl(netloc: string, query: map<string, seq<string>>)

  /** The fallback: the first `v` parameter of a URL whose host contains `youtube.com`. */
  function QueryId(parsed: ParsedUrl): (r: Option<string>)
    ensures r.Some? <==> Contains(parsed.netloc, "youtube.com") && "v" in parsed.query && parsed.query["v"] != []
    ensures r.Some? ==> r.value == parsed.query["v"][0]
  {
    if Contains(parsed.netloc, "youtube.com") && "v" in parsed.query && parsed.query["v"] != [] then
      Some(parsed.query["v"][0])
    else None
  }

  /** `extract_video_id`: the first pattern, then the shorts pattern, then the parsed
      query. */
  function ExtractVideoId(url: string, parsed: ParsedUrl): (r: Option<string>)
    ensures Search(url, LinkPrefixes, 0).Some? ==> r == Search(url, LinkPrefixes, 0)
    ensures Search(url, LinkPrefixes, 0).None? && Search(url, ShortsPrefixes, 0).Some? ==> r == Search(url, ShortsPrefixes, 0)
    ensures Search(url, LinkPrefixes, 0).None? && Search(url, ShortsPrefixes, 0).None? ==> r == QueryId(parsed)
  {
    match Search(url, LinkPrefixes, 0)
    case Some(id) => Some(id)
    case None =>
      match Search(url, ShortsPrefixes, 0)
      case Some(id) => Some(id)
      case None => QueryId(parsed)
  }

  /** An id found by either pattern is eleven id characters. */
  lemma PatternIdsAreWellFormed(url: string, parsed: ParsedUrl)
    requires Search(url, LinkPrefixes, 0).Some? || Search(url, ShortsPrefixes, 0).Some?
    ensures ExtractVideoId(url, parsed).Some? && IsVideoId(ExtractVideoId(url, parsed).value)
  {
  }

  /** A link that starts with one of the first pattern's forms yields the eleven
      characters after it, whatever follows them. */
  lemma {:induction false} LeadingLinkGivesId(j: nat, id: string, rest: string, parsed: ParsedUrl)
    requires j < |LinkPrefixes| && IsVideoId(id)
    ensures ExtractVideoId(LinkPrefixes[j] + id + rest, parsed) == Some(id)
  {
    var url := LinkPrefixes[j] + id + rest;
    var q := LinkPrefixes[j];
    assert url[..|q|] == q;
    assert url[|q|..|q| + IdLength] == id;
    assert OccursAt(url, q, 0) && IdAt(url, |q|);
    assert forall i :: 0 <= i < j ==> !OccursAt(url, LinkPrefixes[i], 0) by {
      if j == 1 {
        assert url[5] == '.' && LinkPrefixes[0][5] == 'b';
        assert url[..|LinkPrefixes[0]|][5] == url[5];
      } else if j == 2 {
        assert url[5] == 'b' && LinkPrefixes[1][5] == '.';
        assert url[..|LinkPrefixes[1]|][5] == url[5];
        assert url[12] == 'e' && LinkPrefixes[0][12] == 'w';
        assert url[..|LinkPrefixes[0]|][12] == url[12];
      }
    }
    assert MatchAt(url, LinkPrefixes, 0) == Some(id) by {
      var tail := LinkPrefixes[1..];
      assert tail[0] == LinkPrefixes[1] && tail[1..] == [LinkPrefixes[2]];
      if j == 2 {
        assert MatchAt(url, tail[1..], 0) == Some(id);
      }
      if j >= 1 {
        assert MatchAt(url, tail, 0) == Some(id);
      }
    }
  }

  /** The message of the failure raised for a URL without an id. */
  const InvalidUrl: string := "Invalid YouTube URL"

  /** The reply of `summarize_video`. */
  datatype VideoSummary = VideoSummary(
    videoId: string,
    title: string,
    author: string,
    thumbnail: string,
    summary: string,
    hasTranscript: bool)

  /** `info.get(key, default)`. */
  function GetOr(info: map<string, string>, key: string, default: string): (r: string)
    ensures key in info ==> r == info[key]
    ensures key !in info ==> r == default
  {
    if key in info then info[key] else default
  }

  /** `get_transcript`: no transcript source is wired in, so there never is one. */
  function Transcript(videoId: string, language: string): Option<string> {
    None
  }

  /** The fixed parts of the text given instead of a summary when there is no
      transcript. */
  const NoTranscriptHead: string := "Unable to retrieve transcript for this video.\n\n**Video Information:**\n- Title: "
  const AuthorLine: string := "\n- Author: "
  const NoTranscriptAdvice: string := "\n\nTo get a summary, you can:\n1. Watch the video manually\n2. Use browser extensions that support transcript extraction\n3. Check if captions are available on the video\n\nNote: For full transcript support, the youtube-transcript-api package needs to be installed."

  /** The text given instead of a summary, naming the video's title and author. */
  function FallbackSummary(title: string, author: string): string {
    NoTranscriptHead + title + AuthorLine + author + NoTranscriptAdvice
  }

  /** `summarize_video`. `infoOf` stands for the oEmbed lookup of `get_video_info`
      (its own fallback included): it is consulted only once the id is known. */
  function SummarizeVideo(url: string, parsed: ParsedUrl, infoOf: string -> map<string, string>, language: string): (r: Result<VideoSummary, string>)
    ensures r.Err? <==> ExtractVideoId(url, parsed) == None || ExtractVideoId(url, parsed) == Some("")
    ensures r.Err? ==> r.error == InvalidUrl
    ensures r.Ok? ==> Some(r.value.videoId) == ExtractVideoId(url, parsed) && !r.value.hasTranscript
    ensures r.Ok? ==> var info := infoOf(r.value.videoId);
                      && r.value.title == GetOr(info, "title", "Unknown")
                      && r.value.author == GetOr(info, "author_name", "Unknown")
                      && r.value.thumbnail == GetOr(info, "thumbnail_url", "")
                      && r.value.summary == FallbackSummary(r.value.title, r.value.author)
  {
    match ExtractVideoId(url, parsed)
    case None => Err(InvalidUrl)
    case Some(videoId) =>
      if videoId == "" then Err(InvalidUrl)
      else
        var info := infoOf(videoId);
        var transcript := Transcript(videoId, language);
        var title := GetOr(info, "title", "Unknown");
        var author := GetOr(info, "author_name", "Unknown");
        Ok(VideoSummary(videoId, title, author, GetOr(info, "thumbnail_url", ""), FallbackSummary(title, author), transcript.Some?))
  }

  /** A URL without an id fails the same way whatever the video lookup would answer:
      nothing is looked up first. */
  lemma FailsBeforeLookup(url: string, parsed: ParsedUrl, infoOf: string -> map<string, string>, other: string -> map<string, string>, language: string)
    requires SummarizeVideo(url, parsed, infoOf, language).Err?
    ensures SummarizeVideo(url, parsed, other, language) == Err(InvalidUrl)
  {
  }

  /** A well-formed link always gets the fallback summary for its id. */
  lemma LinkGetsFallback(j: nat, id: string, rest: string, parsed: ParsedUrl, infoOf: string -> map<string, string>, language: string)
    requires j < |LinkPrefixes| && IsVideoId(id)
    ensures var r := SummarizeVideo(LinkPrefixes[j] + id + rest, parsed, infoOf, language);
            r.Ok? && r.value.videoId == id && !r.value.hasTranscript
  {
    LeadingLinkGivesId(j, id, rest, parsed);
  }
}
