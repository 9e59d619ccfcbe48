/** The listening address (`crates/configure/src/server.rs`). */
module Server {
  import opened Results
  import opened Ints
  import opened Strings
  import Decimal

  datatype ServerConfig = ServerConfig(host: string, port: U16)

  /** `std::net::AddrParseError`, whose contents the model does not inspect. */
  datatype AddrParseError = AddrParseError

  const HttpScheme: string := "http://"

  /**
   * `get_addr`: `host:port`. It never fails, and the text after its last `:` is the
   * decimal port, so host and port can always be read back, whatever the host holds.
   */
  function GetAddr(cfg: ServerConfig): (r: Result<string, AddrParseError>)
    ensures r.Ok?
    ensures SplitLast(r.value, ':') == Some((cfg.host, Decimal.FromNat(cfg.port)))
    ensures Decimal.Parse(SplitLast(r.value, ':').value.1) == Some(cfg.port)
  {
    var port := Decimal.FromNat(cfg.port);
    Decimal.NoDelimiters(cfg.port);
    SplitLastOf(cfg.host, ':', port);
    Decimal.ParseFromNat(cfg.port);
    Ok(cfg.host + ":" + port)
  }

  /** `get_http_addr`: never fails, and is `http://` in front of `get_addr`'s text. */
  function GetHttpAddr(cfg: ServerConfig): (r: Result<string, AddrParseError>)
    ensures r.Ok?
    ensures StartsWith(r.value, HttpScheme)
    ensures r.value[|HttpScheme|..] == GetAddr(cfg).value
  {
    var r := HttpScheme + cfg.host + ":" + Decimal.FromNat(cfg.port);
    assert r[|HttpScheme|..] == cfg.host + ":" + Decimal.FromNat(cfg.port);
    Ok(r)
  }

  /**
   * `get_socket_addr`: the socket-address parse (a parameter here) of `get_addr`'s text;
   * the `?` on `get_addr` never propagates anything, since `get_addr` cannot fail.
   */
  function GetSocketAddr<A>(cfg: ServerConfig, parse: string -> Result<A, AddrParseError>): (r: Result<A, AddrParseError>)
    ensures exists s :: SplitLast(s, ':') == Some((cfg.host, Decimal.FromNat(cfg.port))) && r == parse(s)
  {
    var addr := GetAddr(cfg).value;
    assert SplitLast(addr, ':') == Some((cfg.host, Decimal.FromNat(cfg.port)));
    parse(addr)
  }

  /**
   * A socket-address error can only come from the parse, never from `get_addr`: the
   * parse is applied to `host:port` and to nothing else.
   */
  lemma SocketAddrErrorOnlyFromParse<A>(cfg: ServerConfig, parse: string -> Result<A, AddrParseError>)
    ensures GetSocketAddr(cfg, parse) == parse(cfg.host + ":" + Decimal.FromNat(cfg.port))
    ensures GetSocketAddr(cfg, parse).Err? ==> parse(GetAddr(cfg).value).Err?
  {
    assert GetAddr(cfg).value == cfg.host + ":" + Decimal.FromNat(cfg.port);
  }
}
