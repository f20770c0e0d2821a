/** The playback fallback engine as pure transitions of the playback state:
    the mode, the Hls.js instance, the JW Player instance and the children of
    the player container. Each class method of `Viewer.Player` that changes
    this state is proved to perform exactly one of these transitions. */
module Engine {
  import opened Js
  import opened Sources

  /** `state.mode`: `null`, `"jw"`, `"video"` or `"iframe"`. */
  datatype Mode = Idle | Jw | Video | Iframe

  /** A child of the player container. A video's `src` is set only on the native HLS
      route; `controls` is the last-resort switch. */
  datatype Child = IframeEl(src: Option<string>) | VideoEl(src: Option<string>, controls: bool)

  /** A JW Player set up for one attempt: the playlist title, the sources, and the raw
      `srv.url` its one-shot error handler falls back to. */
  datatype JwAttempt = JwAttempt(title: string, sources: seq<Source>, srvUrl: Option<string>)

  /** What the page offers: `window.jwplayer` loaded, native HLS in the video element
      (`canPlayType`), and `window.Hls && Hls.isSupported()`. */
  datatype Env = Env(jwLoaded: bool, nativeHls: bool, hlsSupported: bool)

  /** The playback state. `hls` holds the source URL of the live Hls.js instance. */
  datatype Playback = Playback(mode: Mode, hls: Option<string>, jw: Option<JwAttempt>, container: seq<Child>)

  /** The state before any attempt: no mode, no instances, an empty container. */
  const Initial := Playback(Idle, None, None, [])

  /** The invariant every transition keeps. */
  predicate Consistent(p: Playback, env: Env) {
    (p.jw.Some? <==> p.mode == Jw) && (p.jw.Some? ==> env.jwLoaded) &&
    (p.mode == Idle ==> p.hls.None? && p.container == []) &&
    (p.mode == Iframe ==> p.hls.None? && |p.container| == 1 && p.container[0].IframeEl?) &&
    (p.mode == Video ==> |p.container| == 1 && p.container[0].VideoEl?) &&
    (p.hls.Some? ==> env.hlsSupported && !env.nativeHls &&
                     |p.container| == 1 && p.container[0].VideoEl? && p.container[0].src.None?)
  }

  /** The opaque-frame tier is resident, pointed at `src`. */
  predicate FrameOn(p: Playback, src: Option<string>) {
    p.mode == Iframe && p.hls.None? && p.container == [IframeEl(src)]
  }

  /** The video tier is resident for `url`: native HLS plays the URL in the element,
      else Hls.js holds it, else the element shows its controls as last resort. */
  predicate VideoOn(p: Playback, url: string, env: Env) {
    p.mode == Video && |p.container| == 1 && p.container[0].VideoEl? &&
    (p.hls.Some? <==> !env.nativeHls && env.hlsSupported) &&
    (p.hls.Some? ==> p.hls.value == url) &&
    (p.container[0].src.Some? <==> env.nativeHls) &&
    (env.nativeHls ==> p.container[0].src.value == url) &&
    (p.container[0].controls <==> !env.nativeHls && !env.hlsSupported)
  }

  /** `clearPlayer`: remove a JW instance (only when the mode says "jw"), destroy Hls.js,
      empty the container and forget the mode. */
  function Clear(p: Playback, env: Env): (r: Playback)
    ensures r.mode == Idle && r.hls.None? && r.container == []
    ensures Consistent(p, env) ==> r == Initial
  {
    Playback(Idle, None, if env.jwLoaded && p.mode == Jw then None else p.jw, [])
  }

  /** `fallbackToIframe(url)`: clear, then one frame on `url`. */
  function ToIframe(p: Playback, url: Option<string>, env: Env): (r: Playback)
    ensures FrameOn(r, url)
    ensures Consistent(p, env) ==> Consistent(r, env) && r.jw.None?
  {
    Clear(p, env).(container := [IframeEl(url)], mode := Iframe)
  }

  /** `fallbackToNativeHls(url)`: clear, then one video element, fed natively, through
      Hls.js, or left with its controls on. */
  function ToNativeHls(p: Playback, url: string, env: Env): (r: Playback)
    ensures VideoOn(r, url, env)
    ensures Consistent(p, env) ==> Consistent(r, env) && r.jw.None?
  {
    var c := Clear(p, env).(mode := Video);
    if env.nativeHls then c.(container := [VideoEl(Some(url), false)])
    else if env.hlsSupported then c.(container := [VideoEl(None, false)], hls := Some(url))
    else c.(container := [VideoEl(None, true)])
  }

  /** `setupPlayer()` for server `idx` of `servers` (clamped), titled `title`. */
  function Setup(p: Playback, env: Env, servers: seq<ServerEntry>, idx: int, title: string): (r: Playback)
    ensures |servers| == 0 ==> r == p
    ensures Consistent(p, env) ==> Consistent(r, env)
    ensures |servers| > 0 ==>
      var srv := servers[Clamp(idx, |servers|)];
      var url := OrEmpty(srv.url);
      (!IsDirect(url) ==> FrameOn(r, srv.url)) &&
      (IsDirect(url) && env.jwLoaded ==>
        r.mode == Jw && r.jw == Some(JwAttempt(title, BuildJwSources(srv).value, srv.url)) &&
        r.hls == p.hls && r.container == p.container) &&
      (IsDirect(url) && !env.jwLoaded && Includes(url, HlsMarker) ==> VideoOn(r, url, env)) &&
      (IsDirect(url) && !env.jwLoaded && !Includes(url, HlsMarker) ==> FrameOn(r, srv.url))
  {
    if |servers| == 0 then p
    else
      var srv := servers[Clamp(idx, |servers|)];
      match BuildJwSources(srv)
      case None => ToIframe(p, srv.url, env)
      case Some(sources) =>
        if env.jwLoaded then p.(jw := Some(JwAttempt(title, sources, srv.url)), mode := Jw)
        else if Includes(sources[0].file, HlsMarker) then ToNativeHls(p, sources[0].file, env)
        else ToIframe(p, srv.url, env)
  }

  /** `sources?.[0]?.file || ""`. */
  function FirstFile(sources: seq<Source>): string {
    if |sources| > 0 then sources[0].file else ""
  }

  /** The JW error handler: an HLS file goes to the video tier on that file, anything
      else to a frame on the server's raw URL. Without a JW instance nothing listens. */
  function JwError(p: Playback, env: Env): (r: Playback)
    ensures p.jw.None? ==> r == p
    ensures Consistent(p, env) ==> Consistent(r, env)
    ensures p.jw.Some? && Includes(FirstFile(p.jw.value.sources), HlsMarker) ==>
      VideoOn(r, FirstFile(p.jw.value.sources), env)
    ensures p.jw.Some? && !Includes(FirstFile(p.jw.value.sources), HlsMarker) ==>
      FrameOn(r, p.jw.value.srvUrl)
    ensures Consistent(p, env) ==> r.jw.None?
  {
    match p.jw
    case None => p
    case Some(a) =>
      var file := FirstFile(a.sources);
      if Includes(file, HlsMarker) then ToNativeHls(p, file, env) else ToIframe(p, a.srvUrl, env)
  }

  /** The Hls.js error handler: a fatal error switches the video's controls on. The
      container test is what `Consistent` already guarantees while Hls.js is live
      (the handler's video is the container's only child). */
  function HlsError(p: Playback, fatal: bool): (r: Playback)
    ensures !fatal || p.hls.None? ==> r == p
    ensures r.mode == p.mode && r.hls == p.hls && r.jw == p.jw && |r.container| == |p.container|
    ensures fatal && p.hls.Some? && |p.container| == 1 && p.container[0].VideoEl? ==>
      r.container == [VideoEl(p.container[0].src, true)]
  {
    if fatal && p.hls.Some? && |p.container| == 1 && p.container[0].VideoEl?
    then p.(container := [p.container[0].(controls := true)])
    else p
  }

  /** A fatal Hls.js error keeps the instance and the state consistent; the mode stays "video". */
  lemma HlsErrorKeepsVideo(p: Playback, env: Env, fatal: bool)
    requires Consistent(p, env) && p.hls.Some?
    ensures Consistent(HlsError(p, fatal), env)
    ensures p.mode == Video ==> HlsError(p, fatal).mode == Video
    ensures fatal ==> HlsError(p, fatal).container[0].controls
  {
  }

  /** Whatever tier the previous attempt settled on, a new attempt reaches the same mode
      and JW attempt, and the same whole state unless it lands in the rich player
      (whose path does not clear the old state). */
  lemma SetupForgetsPrevious(p1: Playback, p2: Playback, env: Env, servers: seq<ServerEntry>, idx: int, title: string)
    requires Consistent(p1, env) && Consistent(p2, env) && |servers| > 0
    ensures Setup(p1, env, servers, idx, title).mode == Setup(p2, env, servers, idx, title).mode
    ensures Setup(p1, env, servers, idx, title).jw == Setup(p2, env, servers, idx, title).jw
    ensures Setup(p1, env, servers, idx, title).mode != Jw ==>
      Setup(p1, env, servers, idx, title) == Setup(p2, env, servers, idx, title)
  {
  }

  /** A JW error after an attempt on a direct server: an HLS URL demotes to the video
      tier on that same URL, never to a frame; any other URL demotes to a frame on the
      server's raw URL. */
  lemma SetupThenJwError(p: Playback, env: Env, servers: seq<ServerEntry>, idx: int, title: string)
    requires Consistent(p, env) && |servers| > 0 && env.jwLoaded
    requires IsDirect(OrEmpty(servers[Clamp(idx, |servers|)].url))
    ensures var srv := servers[Clamp(idx, |servers|)];
      var r := JwError(Setup(p, env, servers, idx, title), env);
      (Includes(OrEmpty(srv.url), HlsMarker) ==> VideoOn(r, OrEmpty(srv.url), env)) &&
      (!Includes(OrEmpty(srv.url), HlsMarker) ==> FrameOn(r, srv.url))
  {
  }

  /** The rich-player path does not clear: an Hls.js instance left by an earlier
      demotion survives into the new JW attempt. */
  lemma JwSetupKeepsHlsInstance()
    ensures var env := Env(true, false, true);
      var url := "live.m3u8";
      var servers := [ServerEntry(None, Some(url), None, None)];
      var p1 := Setup(Initial, env, servers, 0, "c");
      var p2 := JwError(p1, env);
      var p3 := Setup(p2, env, servers, 0, "c");
      p2.mode == Video && p2.hls == Some(url) &&
      p3.mode == Jw && p3.hls == Some(url)
  {
    var url := "live.m3u8";
    assert OccursAt(url, HlsMarker, 4);
    OccurrenceIncludes(url, HlsMarker, 4);
  }
}
