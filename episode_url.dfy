/**
 * Recognition of Spotify episode URLs: the anchored pattern
 * `^https://open\.spotify\.com/episode/([a-zA-Z0-9]+)` applied with `re.match`,
 * whose first group is the episode id.
 */
module EpisodeUrl {
  import opened Wrappers

  /** The literal, case-sensitive text the pattern demands at the start of the URL. */
  const EpisodePrefix: string := "https://open.spotify.com/episode/"

  /** The character class `[a-zA-Z0-9]`: ASCII letters and digits only. */
  predicate IsIdChar(c: char) {
    'a' <= c <= 'z' || 'A' <= c <= 'Z' || '0' <= c <= '9'
  }

  predicate IsIdString(s: string) {
    forall i :: 0 <= i < |s| ==> IsIdChar(s[i])
  }

  /**
   * The run of id characters at the start of `s` that the greedy `[a-zA-Z0-9]+`
   * consumes: a prefix of `s`, made of id characters only, and not extendable.
   */
  function LeadingRun(s: string): (r: string)
    ensures r <= s
    ensures IsIdString(r)
    ensures |r| == |s| || !IsIdChar(s[|r|])
  {
    if s != [] && IsIdChar(s[0]) then [s[0]] + LeadingRun(s[1..]) else []
  }

  /**
   * The episode id of `url`, or None when the pattern does not match.
   * A match needs the exact prefix and at least one id character right after it;
   * the id is the maximal run of id characters there and whatever follows it
   * (a `?si=...` query, a path) is ignored, since `match` anchors only at the start.
   */
  function ParseEpisodeId(url: string): (r: Option<string>)
    ensures r.Some? <==>
      EpisodePrefix <= url && |url| > |EpisodePrefix| && IsIdChar(url[|EpisodePrefix|])
    ensures r.Some? ==> r.value != [] && IsIdString(r.value) && EpisodePrefix + r.value <= url
    ensures r.Some? ==>
      var end := |EpisodePrefix| + |r.value|;
      end == |url| || !IsIdChar(url[end])
  {
    if EpisodePrefix <= url then
      var rest := url[|EpisodePrefix|..];
      var id := LeadingRun(rest);
      assert url == EpisodePrefix + rest;
      assert id != [] <==> rest != [] && IsIdChar(rest[0]);
      if id == [] then None else Some(id)
    else
      None
  }

  /** The greedy run of `id + rest` is exactly `id` when `rest` cannot extend it. */
  lemma {:induction false} LeadingRunOfRun(id: string, rest: string)
    requires IsIdString(id)
    requires rest == [] || !IsIdChar(rest[0])
    ensures LeadingRun(id + rest) == id
  {
    if id != [] {
      assert (id + rest)[0] == id[0];
      assert (id + rest)[1..] == id[1..] + rest;
      LeadingRunOfRun(id[1..], rest);
    } else {
      assert id + rest == rest;
    }
  }

  /**
   * The inverse of ParseEpisodeId: building a URL from an id and parsing it gives the id back.
   * Any trailing text that does not start with an id character is ignored.
   */
  lemma ParseEpisodeUrl(id: string, rest: string)
    requires id != [] && IsIdString(id)
    requires rest == [] || !IsIdChar(rest[0])
    ensures ParseEpisodeId(EpisodePrefix + id + rest) == Some(id)
  {
    var url := EpisodePrefix + id + rest;
    assert url[|EpisodePrefix|..] == id + rest;
    LeadingRunOfRun(id, rest);
  }

  /** A matched URL is the prefix, the id and a remainder that cannot extend the id. */
  lemma ParsedUrlDecomposes(url: string)
    requires ParseEpisodeId(url).Some?
    ensures var id := ParseEpisodeId(url).value;
      var rest := url[|EpisodePrefix| + |id|..];
      url == EpisodePrefix + id + rest && (rest == [] || !IsIdChar(rest[0]))
  {
    var id := ParseEpisodeId(url).value;
    var n := |EpisodePrefix| + |id|;
    assert url[..n] == EpisodePrefix + id;
    assert url == url[..n] + url[n..];
  }

  /** A share link with a tracking query yields the id alone. */
  lemma ShareLinkExample()
    ensures ParseEpisodeId("https://open.spotify.com/episode/4rOo9?si=x") == Some("4rOo9")
  {
    ParseEpisodeUrl("4rOo9", "?si=x");
    assert EpisodePrefix + "4rOo9" + "?si=x" == "https://open.spotify.com/episode/4rOo9?si=x";
  }

  /** URLs the pattern refuses: another scheme, other letter case, no id, a non-id character first. */
  lemma RejectedUrlExamples()
    ensures ParseEpisodeId("http://open.spotify.com/episode/abc").None?
    ensures ParseEpisodeId("https://OPEN.spotify.com/episode/abc").None?
    ensures ParseEpisodeId("https://open.spotify.com/episode/").None?
    ensures ParseEpisodeId("https://open.spotify.com/episode/-abc").None?
    ensures ParseEpisodeId("https://open.spotify.com/show/abc").None?
  {
    assert "http://open.spotify.com/episode/abc"[4] != EpisodePrefix[4];
    assert "https://OPEN.spotify.com/episode/abc"[8] != EpisodePrefix[8];
    assert "https://open.spotify.com/show/abc"[25] != EpisodePrefix[25];
  }
}
