/** Worked scenarios over a two-server catalog: one HLS server and one embed page. */
module Scenarios {
  import opened Js
  import opened Sources
  import opened Catalog
  import opened Engine

  const HlsUrl := "http://x/stream.m3u8"
  const EmbedUrl := "http://y/embed"

  const ServerA := ServerEntry(Some("A"), Some(HlsUrl), None, None)
  const ServerB := ServerEntry(Some("B"), Some(EmbedUrl), None, None)

  /** `{"news": {servidores: [A, B]}}`. */
  const News := Config(["news"], map["news" := Some(ConfigEntry(Some([ServerA, ServerB]), None, None, None))])

  /** The embed URL has no dot, so it carries neither marker. */
  lemma EmbedUrlNotDirect()
    ensures !IsDirect(EmbedUrl)
  {
    assert forall k :: 0 <= k < |EmbedUrl| ==> EmbedUrl[k] != '.';
    MissingFirstChar(EmbedUrl, HlsMarker);
    MissingFirstChar(EmbedUrl, DashMarker);
  }

  lemma HlsUrlIsHls()
    ensures Includes(HlsUrl, HlsMarker) && IsDirect(HlsUrl)
  {
    assert OccursAt(HlsUrl, HlsMarker, 15);
    OccurrenceIncludes(HlsUrl, HlsMarker, 15);
  }

  /** `?id=news` selects the channel, whose servers are A and B in that order. */
  lemma NewsServers()
    ensures News.WellFormed() && ChannelKey(News, "news") == "news"
    ensures NormalizeServers(News.entries["news"]) == [ServerA, ServerB]
  {
  }

  /** `?id=news&s=2`: the second server is selected and goes straight to a frame on its URL,
      whatever the page offers. */
  lemma SecondServerByParameter(env: Env)
    ensures StartIndex(Some(2), 2) == 1
    ensures FrameOn(Setup(Initial, env, [ServerA, ServerB], 1, "news"), Some(EmbedUrl))
  {
    EmbedUrlNotDirect();
    assert BuildJwSources(ServerB).None?;
  }

  /** `?id=news` with the JW Player loaded: the first server starts in the rich player,
      and a JW error demotes it to the video tier on the same URL. */
  lemma FirstServerDemotesToVideo(env: Env)
    requires env.jwLoaded
    ensures StartIndex(None, 2) == 0
    ensures Setup(Initial, env, [ServerA, ServerB], 0, "news").mode == Jw
    ensures VideoOn(JwError(Setup(Initial, env, [ServerA, ServerB], 0, "news"), env), HlsUrl, env)
  {
    HlsUrlIsHls();
    HlsWinsOverDash(ServerA);
    assert BuildJwSources(ServerA) == Some([Source(HlsUrl, None)]);
  }

  /** A catalog with keys but an unknown `id` falls back to its first key. */
  lemma UnknownIdFallsBack()
    ensures ChannelKey(News, "sports") == "news"
  {
  }
}
