/** The read-only configuration object of config.js: the ESP32's address and
    port, the update interval, the history capacity, and the function that
    builds the WebSocket URL from the address and the port. */
module Config {
  import opened Wrappers

  /** True when `p` is a prefix of `s`. */
  predicate IsPrefix(p: string, s: string)
  {
    |p| <= |s| && s[..|p|] == p
  }

  datatype Config = Config(esp32Ip: string, esp32Port: string, updateInterval: nat, maxHistorical: nat)
  {
    /** WEBSOCKET_URL(): a plain `ws://` URL for host and port; never TLS. */
    function WebSocketUrl(): (url: string)
      ensures IsPrefix("ws://", url)
      ensures !IsPrefix("wss://", url)
    {
      var url := "ws://" + esp32Ip + ":" + esp32Port;
      assert url[2] == ':' != "wss://"[2];
      url
    }
  }

  /** The values config.js ships with. */
  const CONFIG := Config("192.168.1.XXX", "81", 2000, 20)

  /** The history capacity that the dashboard's history update slices by. */
  const MAX_HISTORICAL: nat := CONFIG.maxHistorical

  lemma MaxHistoricalValue()
    ensures MAX_HISTORICAL == 20
    ensures CONFIG.WebSocketUrl() == "ws://192.168.1.XXX:81"
  {
  }

  /** The first position of `c` in `s`, if any. */
  function IndexOf(s: string, c: char): (r: Option<nat>)
    ensures r.Some? ==> r.value < |s| && s[r.value] == c && c !in s[..r.value]
    ensures r.None? ==> c !in s
  {
    if s == [] then None
    else if s[0] == c then Some(0)
    else
      match IndexOf(s[1..], c)
      case None => None
      case Some(i) =>
        assert s[..i + 1] == [s[0]] + s[1..][..i];
        Some(i + 1)
  }

  /** Splits a `ws://host:port` URL at the first ':' after the scheme. Every
      URL it accepts is rebuilt exactly from the host and port it returns. */
  function ParseUrl(url: string): (r: Option<(string, string)>)
    ensures r.Some? ==> ':' !in r.value.0 && "ws://" + r.value.0 + ":" + r.value.1 == url
    ensures r.None? ==> !IsPrefix("ws://", url) || ':' !in url[5..]
  {
    if !IsPrefix("ws://", url) then None
    else
      var rest := url[5..];
      match IndexOf(rest, ':')
      case None => None
      case Some(i) =>
        assert url == "ws://" + rest[..i] + ":" + rest[i + 1..] by {
          assert rest == rest[..i] + [rest[i]] + rest[i + 1..];
        }
        Some((rest[..i], rest[i + 1..]))
  }

  lemma {:induction false} IndexOfColonFreePrefix(ip: string, port: string)
    requires ':' !in ip
    ensures IndexOf(ip + ":" + port, ':') == Some(|ip|)
  {
    if ip != [] {
      assert (ip + ":" + port)[1..] == ip[1..] + ":" + port;
      IndexOfColonFreePrefix(ip[1..], port);
    }
  }

  /** When the IP has no ':', the URL yields back exactly its IP and port. */
  lemma UrlRoundTrip(c: Config)
    requires ':' !in c.esp32Ip
    ensures ParseUrl(c.WebSocketUrl()) == Some((c.esp32Ip, c.esp32Port))
  {
    var url := c.WebSocketUrl();
    var rest := c.esp32Ip + ":" + c.esp32Port;
    assert url[..5] == "ws://" && url[5..] == rest;
    IndexOfColonFreePrefix(c.esp32Ip, c.esp32Port);
    assert rest[..|c.esp32Ip|] == c.esp32Ip && rest[|c.esp32Ip| + 1..] == c.esp32Port;
  }

  /** For colon-free IPs, two configurations give the same URL exactly when
      they name the same IP and port. */
  lemma UrlDeterminesAddress(c: Config, d: Config)
    requires ':' !in c.esp32Ip && ':' !in d.esp32Ip
    ensures c.WebSocketUrl() == d.WebSocketUrl() <==> c.esp32Ip == d.esp32Ip && c.esp32Port == d.esp32Port
  {
    UrlRoundTrip(c);
    UrlRoundTrip(d);
  }

  /** UPDATE_INTERVAL and MAX_HISTORICAL play no part in the URL. */
  lemma UrlIgnoresTunables(c: Config, interval: nat, capacity: nat)
    ensures c.(updateInterval := interval, maxHistorical := capacity).WebSocketUrl() == c.WebSocketUrl()
  {
  }
}
