/** The player page: the state the page script keeps (channel, servers, active server,
    rendered server buttons, sheet, touch start, and the playback state) and its
    operations and event handlers, each as a method of `Player`. */
module Viewer {
  import opened Js
  import opened Sources
  import opened Catalog
  import opened Engine
  import opened Gestures

  /** A server button: its text and whether it carries the `active` class. */
  datatype Button = Button(text: string, active: bool)

  /** A touch position in screen coordinates. */
  datatype Point = Point(x: int, y: int)

  /** The prefix of a default button label. */
  const DefaultLabelPrefix := "Servidor "

  /** `srv.nombre || "Servidor " + (idx + 1)`: the given name, or the prefix followed by
      the decimal digits of the 1-based position. */
  function ButtonLabel(srv: ServerEntry, idx: nat): (text: string)
    ensures Truthy(srv.nombre) ==> text == srv.nombre.value
    ensures !Truthy(srv.nombre) ==>
      |text| > |DefaultLabelPrefix| && text[..|DefaultLabelPrefix|] == DefaultLabelPrefix &&
      IsDigits(text[|DefaultLabelPrefix|..]) && text[|DefaultLabelPrefix|] != '0' &&
      DigitsValue(text[|DefaultLabelPrefix|..]) == idx + 1
  {
    if Truthy(srv.nombre) then srv.nombre.value
    else
      NumberToStringValue(idx + 1);
      var number := NumberToString(idx + 1);
      assert (DefaultLabelPrefix + number)[|DefaultLabelPrefix|..] == number;
      DefaultLabelPrefix + number
  }

  class Player {
    /** The capabilities of the page: fixed for its lifetime. */
    const env: Env

    var channelKey: string
    var title: string
    var servers: seq<ServerEntry>
    var activeServerIndex: int
    var buttons: seq<Button>
    var emptyShown: bool
    var sheetOpen: bool
    var touchStart: Option<Point>

    // the playback state (`state.mode`, `state.hls`, the JW instance, the container)
    var mode: Mode
    var hls: Option<string>
    var jw: Option<JwAttempt>
    var container: seq<Child>

    function State(): Playback
      reads this
    {
      Playback(mode, hls, jw, container)
    }

    /** The playback state is consistent; with servers, the active index is in range and
        there is one button per server. */
    ghost predicate Valid()
      reads this
    {
      Consistent(State(), env) &&
      (|servers| > 0 ==> 0 <= activeServerIndex < |servers| && |buttons| == |servers|)
    }

    constructor (env: Env)
      ensures Valid() && this.env == env && State() == Initial
      ensures channelKey == "" && title == "" && servers == [] && activeServerIndex == 0
      ensures buttons == [] && !emptyShown && !sheetOpen && touchStart.None?
    {
      this.env := env;
      channelKey, title, servers, activeServerIndex := "", "", [], 0;
      buttons, emptyShown, sheetOpen, touchStart := [], false, false, None;
      mode, hls, jw, container := Idle, None, None, [];
    }

    /** `setSheetOpen(open)`. */
    method SetSheetOpen(open: bool)
      modifies this`sheetOpen
      ensures sheetOpen == open
    {
      sheetOpen := open;
    }

    /** `clearPlayer()`. */
    method ClearPlayer()
      requires Valid()
      modifies this`mode, this`hls, this`jw, this`container
      ensures Valid() && State() == Clear(old(State()), env)
      ensures State() == Initial
    {
      if env.jwLoaded && mode == Jw {
        jw := None;  // api.remove()
      }
      if hls.Some? {
        hls := None;  // hls.destroy()
      }
      container := [];
      mode := Idle;
    }

    /** `fallbackToIframe(url)`. */
    method FallbackToIframe(url: Option<string>)
      requires Valid()
      modifies this`mode, this`hls, this`jw, this`container
      ensures Valid() && State() == ToIframe(old(State()), url, env)
    {
      ClearPlayer();
      container := container + [IframeEl(url)];
      mode := Iframe;
    }

    /** `fallbackToNativeHls(url)`: the element is appended first and then fed. */
    method FallbackToNativeHls(url: string)
      requires Valid()
      modifies this`mode, this`hls, this`jw, this`container
      ensures Valid() && State() == ToNativeHls(old(State()), url, env)
    {
      ClearPlayer();
      container := container + [VideoEl(None, false)];
      mode := Video;
      if env.nativeHls {
        container := container[0 := container[0].(src := Some(url))];
        return;
      }
      if env.hlsSupported {
        hls := Some(url);
        return;
      }
      container := container[0 := container[0].(controls := true)];  // last resort
    }

    /** `setupPlayer()`: play the active server, by the highest route available. */
    method SetupPlayer()
      requires Valid()
      modifies this`mode, this`hls, this`jw, this`container
      ensures Valid() && State() == Setup(old(State()), env, servers, activeServerIndex, channelKey)
    {
      if |servers| == 0 {
        return;
      }
      var srv := servers[Clamp(activeServerIndex, |servers|)];
      var sources := BuildJwSources(srv);
      if sources.None? {
        FallbackToIframe(srv.url);
        return;
      }
      if env.jwLoaded {
        jw := Some(JwAttempt(channelKey, sources.value, srv.url));
        mode := Jw;
        return;
      }
      if Includes(sources.value[0].file, HlsMarker) {
        FallbackToNativeHls(sources.value[0].file);
      } else {
        FallbackToIframe(srv.url);
      }
    }

    /** The JW Player's one-shot `error` event. */
    method OnJwError()
      requires Valid()
      modifies this`mode, this`hls, this`jw, this`container
      ensures Valid() && State() == JwError(old(State()), env)
    {
      if jw.None? {
        return;
      }
      var attempt := jw.value;
      var file := FirstFile(attempt.sources);
      if Includes(file, HlsMarker) {
        FallbackToNativeHls(file);
      } else {
        FallbackToIframe(attempt.srvUrl);
      }
    }

    /** The Hls.js `ERROR` event: a fatal one turns the video's controls on. */
    method OnHlsError(fatal: bool)
      requires Valid()
      modifies this`container
      ensures Valid() && State() == HlsError(old(State()), fatal)
    {
      if fatal && hls.Some? {
        container := [container[0].(controls := true)];  // last resort
      }
    }

    /** `renderServers()`: one button per server, the active one marked. */
    method RenderServers()
      modifies this`buttons
      ensures |buttons| == |servers|
      ensures forall i :: 0 <= i < |servers| ==>
        buttons[i] == Button(ButtonLabel(servers[i], i), i == activeServerIndex)
    {
      buttons := [];
      var idx := 0;
      while idx < |servers|
        invariant 0 <= idx <= |servers|
        invariant |buttons| == idx
        invariant forall i :: 0 <= i < idx ==>
          buttons[i] == Button(ButtonLabel(servers[i], i), i == activeServerIndex)
      {
        buttons := buttons + [Button(ButtonLabel(servers[idx], idx), idx == activeServerIndex)];
        idx := idx + 1;
      }
    }

    /** Moves the `active` class to the button of `activeServerIndex`. */
    method HighlightActive()
      modifies this`buttons
      ensures |buttons| == |old(buttons)|
      ensures forall i :: 0 <= i < |buttons| ==>
        buttons[i] == Button(old(buttons)[i].text, i == activeServerIndex)
    {
      var i := 0;
      while i < |buttons|
        invariant 0 <= i <= |buttons| == |old(buttons)|
        invariant forall k :: 0 <= k < i ==> buttons[k] == Button(old(buttons)[k].text, k == activeServerIndex)
        invariant forall k :: i <= k < |buttons| ==> buttons[k] == old(buttons)[k]
      {
        buttons := buttons[i := buttons[i].(active := i == activeServerIndex)];
        i := i + 1;
      }
    }

    /** A click on server button `idx`: select it (re-selecting reloads), then close the sheet. */
    method OnServerClick(idx: nat)
      requires Valid() && idx < |buttons|
      modifies this`activeServerIndex, this`buttons, this`sheetOpen
      modifies this`mode, this`hls, this`jw, this`container
      ensures Valid()
      ensures activeServerIndex == idx && !sheetOpen
      ensures State() == Setup(old(State()), env, servers, idx, channelKey)
      ensures idx == old(activeServerIndex) ==> buttons == old(buttons)
      ensures idx != old(activeServerIndex) ==>
        |buttons| == |old(buttons)| &&
        forall i :: 0 <= i < |buttons| ==> buttons[i] == Button(old(buttons)[i].text, i == idx)
    {
      if idx != activeServerIndex {
        activeServerIndex := idx;
        HighlightActive();
        SetupPlayer();
      } else {
        // the same server: reload it
        SetupPlayer();
      }
      SetSheetOpen(false);
    }

    /** `touchstart`: remember where the touch began. */
    method OnTouchStart(x: int, y: int)
      modifies this`touchStart
      ensures touchStart == Some(Point(x, y))
    {
      touchStart := Some(Point(x, y));
    }

    /** `touchend` at `(x, y)`: forget the start and apply the gesture to the sheet. */
    method OnTouchEnd(x: int, y: int)
      modifies this`touchStart, this`sheetOpen
      ensures touchStart.None?
      ensures old(touchStart).None? ==> sheetOpen == old(sheetOpen)
      ensures old(touchStart).Some? ==>
        sheetOpen == SheetAfter(Classify(x - old(touchStart).value.x, y - old(touchStart).value.y), old(sheetOpen))
    {
      if touchStart.None? {
        return;
      }
      var dx := x - touchStart.value.x;
      var dy := y - touchStart.value.y;
      touchStart := None;
      match Classify(dx, dy)
      case Ignore =>
      case OpenSheet => SetSheetOpen(true);  // swipe up
      case CloseSheet => SetSheetOpen(false);  // swipe down
    }

    /** `initFromConfig()` for the catalog `cfg`, the `id` parameter (`""` when absent) and
        the `s` parameter as `parseInt` read it (`None` for any non-finite result, NaN or
        an infinity, which `!isFinite` sends to 0). */
    method InitFromConfig(cfg: Config, id: string, s: Option<int>)
      requires Valid() && cfg.WellFormed()
      modifies this`channelKey, this`title, this`servers, this`activeServerIndex, this`buttons, this`emptyShown
      modifies this`mode, this`hls, this`jw, this`container
      ensures Valid()
      ensures |cfg.keys| == 0 ==>
        emptyShown && channelKey == old(channelKey) && title == old(title) && servers == old(servers) &&
        activeServerIndex == old(activeServerIndex) && buttons == old(buttons) && State() == old(State())
      ensures |cfg.keys| > 0 ==>
        channelKey == ChannelKey(cfg, id) && title == "Canal: " + channelKey &&
        servers == NormalizeServers(cfg.entries[channelKey])
      ensures |cfg.keys| > 0 && |servers| == 0 ==>
        emptyShown && activeServerIndex == old(activeServerIndex) && buttons == old(buttons) &&
        State() == old(State())
      ensures |cfg.keys| > 0 && |servers| > 0 ==>
        emptyShown == old(emptyShown) &&
        activeServerIndex == StartIndex(s, |servers|) &&
        (forall i :: 0 <= i < |servers| ==> buttons[i] == Button(ButtonLabel(servers[i], i), i == activeServerIndex)) &&
        State() == Setup(old(State()), env, servers, activeServerIndex, channelKey)
    {
      if |cfg.keys| == 0 {
        emptyShown := true;
        return;
      }
      channelKey := ChannelKey(cfg, id);
      var cfgItem := cfg.entries[channelKey];
      title := "Canal: " + channelKey;
      servers := NormalizeServers(cfgItem);
      if |servers| == 0 {
        emptyShown := true;
        return;
      }
      var sIdx: int;
      if s.None? {
        sIdx := 0;  // not a finite number
      } else {
        sIdx := s.value;
      }
      if sIdx > 0 {
        sIdx := sIdx - 1;  // 1-based
      }
      activeServerIndex := Max(0, Min(|servers| - 1, sIdx));
      assert activeServerIndex == StartIndex(s, |servers|);
      ghost var before := State();
      RenderServers();
      assert State() == before;
      SetupPlayer();
    }
  }
}
