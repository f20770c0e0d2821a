/** The channel catalog: turning one configuration entry into a server list,
    and choosing the channel and the starting server from the page parameters. */
module Catalog {
  import opened Js
  import opened Sources

  /** One catalog entry: either `{servidores: [...]}` or the legacy `{url, k1, k2}`.
      `servidores` is `None` when the field is missing or is not an array. */
  datatype ConfigEntry = ConfigEntry(servidores: Option<seq<ServerEntry>>, url: Option<string>, k1: Option<string>, k2: Option<string>)

  /** The catalog object: its keys in `Object.keys` order and the value under each key
      (`None` for a falsy value). */
  datatype Config = Config(keys: seq<string>, entries: map<string, Option<ConfigEntry>>) {
    /** The keys listed are exactly the keys holding a value, as for any JavaScript object. */
    predicate WellFormed() {
      entries.Keys == set k | k in keys
    }
  }

  /** The display name given to the single server synthesised from a legacy entry. */
  const LegacyServerName := "Servidor 1"

  /** The server list of an entry, by priority: a non-empty `servidores` array as it is,
      else one server built from a truthy `url`, else nothing. */
  function NormalizeServers(cfgItem: Option<ConfigEntry>): (r: seq<ServerEntry>)
    ensures cfgItem.None? ==> r == []
    ensures cfgItem.Some? && cfgItem.value.servidores.Some? && |cfgItem.value.servidores.value| > 0 ==>
      r == cfgItem.value.servidores.value
    ensures cfgItem.Some? && !(cfgItem.value.servidores.Some? && |cfgItem.value.servidores.value| > 0) ==>
      if Truthy(cfgItem.value.url)
      then r == [ServerEntry(Some(LegacyServerName), cfgItem.value.url, cfgItem.value.k1, cfgItem.value.k2)]
      else r == []
    ensures |r| == 0 <==>
      cfgItem.None? || (!(cfgItem.value.servidores.Some? && |cfgItem.value.servidores.value| > 0) && !Truthy(cfgItem.value.url))
  {
    match cfgItem
    case None => []
    case Some(item) =>
      if item.servidores.Some? && |item.servidores.value| > 0 then item.servidores.value
      else if Truthy(item.url) then [ServerEntry(Some(LegacyServerName), item.url, item.k1, item.k2)]
      else []
  }

  /** The channel shown: the requested `id` when the catalog has it, else the first key. */
  function ChannelKey(cfg: Config, id: string): (k: string)
    requires |cfg.keys| > 0
    ensures k in cfg.keys
    ensures id in cfg.keys ==> k == id
    ensures id !in cfg.keys ==> k == cfg.keys[0]
  {
    if id in cfg.keys then id else cfg.keys[0]
  }

  /** The starting server for the `s` parameter as `parseInt` read it (`None` for any
      non-finite result, NaN or an infinity, which `!isFinite` sends to 0):
      a positive `s` is 1-based, zero and negatives count as 0-based, and the result
      is forced into the list. */
  function StartIndex(s: Option<int>, n: nat): (r: int)
    requires n > 0
    ensures 0 <= r < n
    ensures s.None? ==> r == 0
    ensures s.Some? && s.value <= 0 ==> r == 0
    ensures s.Some? && 1 <= s.value <= n ==> r == s.value - 1
    ensures s.Some? && s.value > n ==> r == n - 1
  {
    var zeroBased := if s.None? then 0 else if s.value > 0 then s.value - 1 else s.value;
    Clamp(zeroBased, n)
  }
}
