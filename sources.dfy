/** The source classifier: which server records the rich player can play
    directly, and with which source list. Classification looks only at
    substrings of the URL; no manifest is fetched or parsed. */
module Sources {
  import opened Js

  /** Marker of a segmented HLS index URL. */
  const HlsMarker := ".m3u8"
  /** Marker of a DASH manifest URL. */
  const DashMarker := ".mpd"

  /** One server record `{nombre, url, k1, k2}`; every field may be missing. */
  datatype ServerEntry = ServerEntry(nombre: Option<string>, url: Option<string>, k1: Option<string>, k2: Option<string>)

  /** The ClearKey descriptor `{keyId, key}`. */
  datatype ClearKey = ClearKey(keyId: string, key: string)

  /** One rich-player source `{file, drm?}`; `drm` carries `drm.clearkey`. */
  datatype Source = Source(file: string, drm: Option<ClearKey>)

  /** The URL names direct media: it is non-empty and carries one of the two markers. */
  predicate IsDirect(url: string) {
    url != "" && (Includes(url, HlsMarker) || Includes(url, DashMarker))
  }

  /** The source list for a server, or `None` (no direct media). */
  function BuildJwSources(srv: ServerEntry): (r: Option<seq<Source>>)
    ensures r.None? <==> !IsDirect(OrEmpty(srv.url))
    ensures r.Some? ==> |r.value| == 1 && r.value[0].file == OrEmpty(srv.url)
    ensures r.Some? ==>
      (r.value[0].drm.Some? <==> !Includes(OrEmpty(srv.url), HlsMarker) && Truthy(srv.k1) && Truthy(srv.k2))
    ensures r.Some? && r.value[0].drm.Some? ==>
      r.value[0].drm.value == ClearKey(srv.k1.value, srv.k2.value)
  {
    var url := OrEmpty(srv.url);
    if url == "" then None
    else if Includes(url, HlsMarker) then Some([Source(url, None)])
    else if Includes(url, DashMarker) then
      if Truthy(srv.k1) && Truthy(srv.k2)
      then Some([Source(url, Some(ClearKey(srv.k1.value, srv.k2.value)))])
      else Some([Source(url, None)])
    else None
  }

  /** An HLS URL wins over the DASH marker and never gets keys, whatever the record carries. */
  lemma HlsWinsOverDash(srv: ServerEntry)
    requires Includes(OrEmpty(srv.url), HlsMarker)
    ensures BuildJwSources(srv) == Some([Source(OrEmpty(srv.url), None)])
  {
  }

  /** A DASH-only URL gets ClearKey exactly when both keys are truthy, and a bare source otherwise. */
  lemma DashKeys(srv: ServerEntry)
    requires Includes(OrEmpty(srv.url), DashMarker) && !Includes(OrEmpty(srv.url), HlsMarker)
    ensures Truthy(srv.k1) && Truthy(srv.k2) ==>
      BuildJwSources(srv) == Some([Source(OrEmpty(srv.url), Some(ClearKey(srv.k1.value, srv.k2.value)))])
    ensures !(Truthy(srv.k1) && Truthy(srv.k2)) ==>
      BuildJwSources(srv) == Some([Source(OrEmpty(srv.url), None)])
  {
  }

  /** A missing or empty URL is never direct media. */
  lemma EmptyUrlNotDirect(srv: ServerEntry)
    requires !Truthy(srv.url)
    ensures BuildJwSources(srv).None?
  {
  }
}
