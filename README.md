# Playback decision logic of a live-channel viewer

This project models the decision logic of `player.js`. That script is the page of a
mobile live-stream viewer. It reads a channel catalog and the page parameters `id` and
`s`. It chooses one server of the channel and plays it. It tries the best route first:
the JW Player, then a `<video>` element (native HLS or Hls.js), then an `<iframe>`. A
player error moves it down one route. It also renders the server buttons and opens or
closes the server sheet on vertical swipes.

The model has these parts:

- `Js`: some JavaScript value semantics the script depends on. These are optional
  values, string truthiness, `String.prototype.includes` (proved equal to "occurs at
  some position"), the `Math.max`/`Math.min` clamp, and number-to-string conversion.
- `Sources`: server records and `buildJwSources`. The source classifier only checks
  the URL for the substrings ".m3u8" and ".mpd".
- `Catalog`: catalog entries, `normalizeServers`, the channel-key choice and the
  starting-index arithmetic of `initFromConfig`.
- `Engine`: the playback state as a value. This is the mode (`null`/"jw"/"video"/"iframe"),
  the live Hls.js instance, the JW Player instance with its pending one-shot error
  handler, and the children of the player container. Each transition the script makes
  is a pure function. `Consistent` is the invariant that all of them keep.
- `Gestures`: the touch-end threshold rule.
- `Viewer.Player`: a class holding the script's mutable state. Each method changes
  named fields only. It is proved to perform exactly the matching `Engine`
  transition, or states its new fields outright. The object invariant `Valid()` says
  the playback state is `Consistent`. It also says that, whenever there are servers,
  the active index is in range and there is one button per server.
- `Scenarios`: worked examples over a two-server catalog.

Environment capabilities are inputs. They are `Engine.Env(jwLoaded, nativeHls,
hlsSupported)`: `window.jwplayer` is present, `canPlayType` accepts HLS, and
`window.Hls && Hls.isSupported()`. Library callbacks are event methods:
`OnJwError`, `OnHlsError`, `OnTouchStart`, `OnTouchEnd` and `OnServerClick`. The `id`
parameter is a string, with "" when absent (the script's `|| ""`). The `s` parameter
is passed as `parseInt` read it: `None` for any non-finite result (NaN, or an infinity
from a very long digit string), since `!isFinite` sends all of these to index 0.

Where a reader of the script's header comment might expect more than the code does,
the model follows the code:

- One might expect every new attempt to release the previous tier first. The JW path of
  `setupPlayer` does not call `clearPlayer`, so an Hls.js instance left by an earlier
  demotion survives into the new JW attempt. `Engine.JwSetupKeepsHlsInstance` shows a
  concrete sequence of events that reaches this state. `Engine.Setup` only promises that
  the JW path leaves `hls` and the container as they were.
- One might expect late callbacks from released resources to be ignored. The handlers
  have no such guard. The model states what they do and does not claim a guard.
- One might expect the server click to clamp the index. The click handler stores the
  tapped index as it is. Only `setupPlayer` clamps, at lookup time. A button index is
  always in range, so `Valid()` still keeps the stored index in bounds.
- One might expect the normaliser to name unnamed servers "Servidor {i}". The code
  returns `servidores` unchanged and uses that default only for the button text
  (`Viewer.ButtonLabel`).

## Model

| member | source | states |
|---|---|---|
| `Js.IncludesIff` | player.js:132-134 | the scanning `includes` is true exactly when the substring occurs at some position (both directions) |
| `Js.Clamp` | player.js:146 | `max(0, min(i, n-1))` lies in `[0, n-1]` for a non-empty list, is `i` when in range, 0 below and `n-1` above, and 0 for an empty list |
| `Js.NumberToString` | player.js:212 | the template-literal number text is a non-empty string of decimal digits, a single digit exactly below 10, with no leading zero for a positive number |
| `Js.NumberToStringValue` | player.js:212 | the digits of the text read back, left to right, give the number itself |
| `Sources.BuildJwSources` | player.js:126-142 | `None` exactly when the URL (`url` or "") is empty or has neither ".m3u8" nor ".mpd"; otherwise one source whose file is the URL; a ClearKey `{keyId: k1, key: k2}` exactly when the URL has no ".m3u8" and both keys are truthy |
| `Sources.HlsWinsOverDash` | player.js:132 | a URL with ".m3u8" gives one bare source, even if it also has ".mpd" and both keys |
| `Sources.DashKeys` | player.js:134-139 | a ".mpd"-only URL gets ClearKey from k1 and k2 when both are truthy and a bare source otherwise |
| `Sources.EmptyUrlNotDirect` | player.js:127-130 | a missing or empty URL is never direct media |
| `Catalog.NormalizeServers` | player.js:228-233 | in priority order: no entry gives []; a non-empty `servidores` array is returned unchanged; else a truthy `url` gives exactly one "Servidor 1" entry with k1 and k2; else []; and the list is empty exactly in the first and last cases |
| `Catalog.ChannelKey` | player.js:244 | the channel is always a catalog key: the requested `id` when present, else the first key |
| `Catalog.StartIndex` | player.js:255-259 | the start index is in range; a non-finite `s` (NaN or an infinity), zero and negative `s` give 0; `1 <= s <= n` gives `s-1`; a larger `s` gives the last server |
| `Engine.Clear` | player.js:52-67 | after clearing, the mode is null, there is no Hls.js and the container is empty; from a consistent state nothing remains (no JW instance either) |
| `Engine.ToIframe` | player.js:69-82 | after the iframe fallback, the mode is "iframe", there is no Hls.js and the container is exactly one frame on the given URL; consistency is kept and no JW instance remains |
| `Engine.ToNativeHls` | player.js:84-124 | after the video fallback, the mode is "video" with one video child; Hls.js is held (on the URL) exactly when native HLS is missing and Hls.js is supported; the element gets the URL as `src` exactly on the native route; controls are on exactly when neither route exists |
| `Engine.Setup` | player.js:144-203 | an empty server list changes nothing; otherwise the clamped server decides: non-direct media becomes a frame on `srv.url`; with JW loaded the mode becomes "jw" with that server's sources and `srv.url`, and `hls` and the container stay as they were; without JW an ".m3u8" URL goes to the video tier on that URL and anything else to a frame on `srv.url`; consistency is kept |
| `Engine.JwError` | player.js:172-182 | with no JW instance nothing happens; a first source file with ".m3u8" goes to the video tier on that file, anything else to a frame on the attempt's `srv.url`; consistency is kept and the JW instance is gone |
| `Engine.HlsError` | player.js:117-119 | only a fatal error with a live Hls.js changes anything, and then only the video's controls, which go on |
| `Engine.HlsErrorKeepsVideo` | player.js:117-119 | a fatal Hls.js error keeps the state consistent and the mode "video", with controls on |
| `Engine.SetupForgetsPrevious` | player.js:213-222 | a (re)attempt reaches the same mode and JW attempt whatever tier the previous attempt reached; when it does not land in JW, the whole resulting state is the same |
| `Engine.SetupThenJwError` | player.js:156-182 | a JW error after an attempt on a direct server goes to the video tier on the same URL when it has ".m3u8", never to a frame; otherwise to a frame on `srv.url` |
| `Engine.JwSetupKeepsHlsInstance` | player.js:156-194 | setup, JW error on an HLS URL, then setup again with JW: the Hls.js instance from the demotion is still there while the mode is "jw" |
| `Gestures.Classify` | player.js:297-309 | a swipe opens the sheet exactly when `dy <= -30` and `abs(dy) > abs(dx)`, closes it exactly when `dy >= 30` and `abs(dy) > abs(dx)`, and is ignored when horizontal-dominant or below 30 on both axes |
| `Viewer.ButtonLabel` | player.js:212 | a button shows the truthy `nombre`; otherwise "Servidor " followed by digits without a leading zero whose decimal value is the 1-based index |
| `Viewer.Player.constructor` | player.js:25-33 | the starting state: no channel, no servers, index 0, mode null, no instances, empty container, no touch start |
| `Viewer.Player.SetSheetOpen` | player.js:40-50 | the sheet is open exactly as asked |
| `Viewer.Player.ClearPlayer` | player.js:52-67 | performs `Engine.Clear`; nothing remains |
| `Viewer.Player.FallbackToIframe` | player.js:69-82 | performs `Engine.ToIframe` and keeps `Valid()` |
| `Viewer.Player.FallbackToNativeHls` | player.js:84-124 | performs `Engine.ToNativeHls` (append the element, then feed it) and keeps `Valid()` |
| `Viewer.Player.SetupPlayer` | player.js:144-203 | performs `Engine.Setup` on the current servers, active index and channel key |
| `Viewer.Player.OnJwError` | player.js:172-182 | performs `Engine.JwError` |
| `Viewer.Player.OnHlsError` | player.js:117-119 | performs `Engine.HlsError` |
| `Viewer.Player.RenderServers` | player.js:205-226 | produces one button per server, in order, with its label, and the `active` class exactly on the active index |
| `Viewer.Player.HighlightActive` | player.js:216 | keeps every button's text and puts `active` exactly on the active index |
| `Viewer.Player.OnServerClick` | player.js:213-223 | the tapped index becomes active and `Engine.Setup` runs on it in both branches (re-tapping reloads); buttons are re-highlighted only on a change; the sheet ends closed |
| `Viewer.Player.OnTouchStart` | player.js:286-293 | the touch start is recorded |
| `Viewer.Player.OnTouchEnd` | player.js:294-312 | without a touch start nothing changes; otherwise the start is cleared and the sheet follows `Gestures.Classify` of the movement |
| `Viewer.Player.InitFromConfig` | player.js:235-263 | an empty catalog or empty server list shows the empty state and leaves the playback state, the active index and the buttons untouched (an empty catalog also keeps the channel and the title); otherwise the channel is `ChannelKey`, its servers are `NormalizeServers`, the index is `StartIndex`, the buttons are rendered and `Engine.Setup` runs |
| `Scenarios.NewsServers` | player.js:244-249 | for `{"news": {servidores: [A, B]}}` and `id=news`, the channel is "news" and its servers are A and B in order |
| `Scenarios.SecondServerByParameter` | player.js:255-259 | with `s=2`, index 1 (server B) is selected and goes straight to a frame on its URL |
| `Scenarios.FirstServerDemotesToVideo` | player.js:156-182 | with no `s` and JW loaded, server A starts in JW and a JW error demotes it to the video tier on the same URL |
| `Scenarios.UnknownIdFallsBack` | player.js:244 | an unknown channel id falls back to the catalog's first key |

## Left out

- DOM construction details are left out: iframe and video attributes, styles and the `allow` string. The container is a sequence of `IframeEl(src)` and `VideoEl(src, controls)` children.
- The sheet's backdrop `hidden` flag and the button's `aria-expanded` attribute are not separate fields. They always mirror `sheetOpen`.
- Library internals are left out: JW Player, Hls.js, `video.play()` promises, `canPlayType` and the `canplay` listener. Their outcomes are the inputs in `Engine.Env` and the event methods.
- What JW Player does to the container element on `setup` is library behaviour. The model leaves the container's children as this code left them.
- Viewer.Player.OnJwError: the JW instance holds only the error handler of its latest `setup`. Listeners from earlier `setup` calls on the same instance, and whether JW still delivers them, are JW internals and not modelled.
- Viewer.Player.OnHlsError: only the live Hls.js instance emits errors. A destroyed instance is taken to emit nothing.
- Exceptions thrown inside the script's `try` blocks are not modelled. Such calls (`api.remove`, `hls.destroy`, the Hls.js constructor, `loadSource`, `attachMedia`) are taken to succeed. In the code, a throw after `state.hls = hls` would leave the instance recorded and switch the controls on.
- A missing `#player` element is not modelled, because the container is assumed to exist.
- Fullscreen and orientation lock are asynchronous browser calls whose failures are ignored.
- Config polling with `setTimeout` and `performance.now()` is timing, and `getParam` is URL parsing. `id` and the parsed `s` are inputs.
- `console.warn` logging and the best-effort audio-track choice on `play` have no effect on the state.
- Catalog values are modelled as strings or missing. Numbers, objects and `null` entries inside `servidores` are not modelled.
- Touch positions are integer screen coordinates. Fractional coordinates are not modelled.
