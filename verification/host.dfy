/** `makeHost`: the service address the capabilities documents advertise, rebuilt from the
    pieces `url.parse` finds, without a default port and without a trailing slash. */
module Host {
  import opened Wrappers
  import opened Js
  import opened Text
  import opened Model

  /** A template literal `${v}` of a `url.parse` field, which is `null` when absent. */
  function ShowNull(s: Option<string>): string
  {
    if s.Some? then s.value else "null"
  }

  /** A missing, empty or `'80'` port is left out of the rebuilt address. */
  predicate DefaultPort(port: Option<string>)
  {
    !Truthy(port) || port == Some("80")
  }

  /** The path appended to the address: nothing for a missing or root path, otherwise the path
      with at most one trailing slash removed. */
  function PathPart(pathname: Option<string>): (r: string)
    ensures !Truthy(pathname) || pathname == Some("/") ==> r == ""
    ensures Truthy(pathname) && pathname != Some("/") ==>
      var p := pathname.value;
      (p[|p| - 1] == '/' ==> r + "/" == p) && (p[|p| - 1] != '/' ==> r == p)
  {
    if !Truthy(pathname) || pathname == Some("/") then ""
    else
      var p := pathname.value;
      if p[|p| - 1] == '/' then p[..|p| - 1] else p
  }

  /** The address built from a parsed URL, given what is written for a default port. */
  function Assemble(u: UrlRecord, defaultHost: string): string
    requires Truthy(u.protocol)
  {
    u.protocol.value + "//" + (if DefaultPort(u.port) then defaultHost else ShowNull(u.host)) + PathPart(u.pathname)
  }

  /** The shared skeleton of both readings: a falsy argument is a `TypeError`, an address
      without a protocol a plain `Error`. */
  function Rebuild(raw: Option<string>, be: Backend, asWritten: bool): (r: Result<string, Failure>)
    ensures !Truthy(raw) ==> r == Err(Failure(TypeError, "no url provided"))
    ensures Truthy(raw) && !Truthy(be.parseUrl(raw.value).protocol) ==> r == Err(Failure(PlainError, "invalid protocol"))
    ensures r.Ok? <==> Truthy(raw) && Truthy(be.parseUrl(raw.value).protocol)
    ensures r.Ok? ==> StartsWith(r.value, be.parseUrl(raw.value).protocol.value + "//")
  {
    if !Truthy(raw) then Err(Failure(TypeError, "no url provided"))
    else
      var u := be.parseUrl(raw.value);
      if !Truthy(u.protocol) then Err(Failure(PlainError, "invalid protocol"))
      else
        var prefix := u.protocol.value + "//";
        var out := Assemble(u, if asWritten then "undefined" else ShowNull(u.hostname));
        assert out[..|prefix|] == prefix;
        Ok(out)
  }

  /** `makeHost` exactly as written: with a default port it appends `parsedUrl.hostName`, a
      property `url.parse` never sets, so the address reads `undefined` in place of the host. */
  function MakeHostAsWritten(raw: Option<string>, be: Backend): (r: Result<string, Failure>)
    ensures !Truthy(raw) ==> r == Err(Failure(TypeError, "no url provided"))
    ensures Truthy(raw) && !Truthy(be.parseUrl(raw.value).protocol) ==> r == Err(Failure(PlainError, "invalid protocol"))
    ensures r.Ok? <==> Truthy(raw) && Truthy(be.parseUrl(raw.value).protocol)
    ensures r.Ok? && DefaultPort(be.parseUrl(raw.value).port) ==>
      var u := be.parseUrl(raw.value);
      r.value == u.protocol.value + "//undefined" + PathPart(u.pathname)
    ensures r.Ok? && !DefaultPort(be.parseUrl(raw.value).port) ==>
      var u := be.parseUrl(raw.value);
      r.value == u.protocol.value + "//" + ShowNull(u.host) + PathPart(u.pathname)
  {
    Rebuild(raw, be, true)
  }

  /** `makeHost` reading `hostname`, the field `url.parse` does set. */
  function MakeHost(raw: Option<string>, be: Backend): (r: Result<string, Failure>)
    ensures !Truthy(raw) ==> r == Err(Failure(TypeError, "no url provided"))
    ensures Truthy(raw) && !Truthy(be.parseUrl(raw.value).protocol) ==> r == Err(Failure(PlainError, "invalid protocol"))
    ensures r.Ok? <==> Truthy(raw) && Truthy(be.parseUrl(raw.value).protocol)
    ensures r.Ok? ==> var u := be.parseUrl(raw.value);
      r.value == u.protocol.value + "//" + (if DefaultPort(u.port) then ShowNull(u.hostname) else ShowNull(u.host)) + PathPart(u.pathname)
  {
    Rebuild(raw, be, false)
  }

  /** A parse result whose `host` is its `hostname` followed by `:port` when there is a port. */
  predicate Consistent(u: UrlRecord)
  {
    u.hostname.Some? && u.host == Some(u.hostname.value + (if u.port.Some? then ":" + u.port.value else ""))
  }

  /** On a consistent parse the corrected `makeHost` yields the protocol, the host name, the port
      unless it is the default, and the path less its trailing slash. */
  lemma MakeHostOfUrl(raw: string, be: Backend)
    requires raw != ""
    requires Truthy(be.parseUrl(raw).protocol) && Consistent(be.parseUrl(raw))
    ensures var u := be.parseUrl(raw);
      MakeHost(Some(raw), be) == Ok(u.protocol.value + "//" + u.hostname.value
        + (if DefaultPort(u.port) then "" else ":" + u.port.value) + PathPart(u.pathname))
  {
    var u := be.parseUrl(raw);
    var a := u.protocol.value + "//";
    var c := PathPart(u.pathname);
    if DefaultPort(u.port) {
      assert a + u.hostname.value + "" + c == a + u.hostname.value + c;
    } else {
      var h := u.hostname.value;
      var q := ":" + u.port.value;
      assert a + (h + q) + c == a + h + q + c;
    }
  }

  /** As written, the result never depends on the host name when the port is the default:
      two addresses that differ only in their host come out the same. */
  lemma AsWrittenIgnoresHost(raw1: string, raw2: string, be: Backend)
    requires raw1 != "" && raw2 != ""
    requires var u1 := be.parseUrl(raw1); var u2 := be.parseUrl(raw2);
      u1.protocol == u2.protocol && u1.pathname == u2.pathname && u1.port == u2.port && DefaultPort(u1.port)
    ensures MakeHostAsWritten(Some(raw1), be) == MakeHostAsWritten(Some(raw2), be)
  {
  }

  /** The corrected reading tells apart two addresses that differ only in their host name. */
  lemma MakeHostKeepsHost(raw1: string, raw2: string, be: Backend)
    requires raw1 != "" && raw2 != ""
    requires var u1 := be.parseUrl(raw1); var u2 := be.parseUrl(raw2);
      Truthy(u1.protocol) && u1.protocol == u2.protocol && u1.pathname == u2.pathname
      && u1.port == u2.port && DefaultPort(u1.port)
      && u1.hostname.Some? && u2.hostname.Some? && u1.hostname != u2.hostname
    ensures MakeHost(Some(raw1), be) != MakeHost(Some(raw2), be)
  {
    var u1 := be.parseUrl(raw1);
    var a := u1.protocol.value + "//";
    var c := PathPart(u1.pathname);
    var h1 := u1.hostname.value;
    var h2 := be.parseUrl(raw2).hostname.value;
    assert (a + h1 + c)[|a|..|a| + |h1|] == h1;
    assert (a + h2 + c)[|a|..|a| + |h2|] == h2;
  }

  /** A single trailing slash on the path makes no difference. */
  lemma TrailingSlashIgnored(raw1: string, raw2: string, be: Backend, path: string)
    requires raw1 != "" && raw2 != ""
    requires path != "" && path != "/" && path[|path| - 1] != '/'
    requires be.parseUrl(raw1).pathname == Some(path)
    requires be.parseUrl(raw2) == be.parseUrl(raw1).(pathname := Some(path + "/"))
    ensures MakeHost(Some(raw1), be) == MakeHost(Some(raw2), be)
    ensures MakeHostAsWritten(Some(raw1), be) == MakeHostAsWritten(Some(raw2), be)
  {
    assert PathPart(Some(path + "/")) == path by {
      assert (path + "/")[..|path|] == path;
    }
  }

  /** The address `http://example.com/wms`, parsed as `url.parse` parses it, comes out as
      `http://undefined/wms` as written and as `http://example.com/wms` once corrected. */
  lemma HostNameTypo(raw: string, be: Backend)
    requires raw == "http://example.com/wms"
    requires be.parseUrl(raw) == UrlRecord(Some("http:"), Some("example.com"), Some("example.com"), None, Some("/wms"))
    ensures MakeHostAsWritten(Some(raw), be) == Ok("http://undefined/wms")
    ensures MakeHost(Some(raw), be) == Ok(raw)
  {
    var path := "/wms";
    assert PathPart(Some(path)) == path by {
      assert path[|path| - 1] == 's';
    }
    assert "http:" + "//" + "undefined" + path == "http://undefined/wms";
    assert "http:" + "//" + "example.com" + path == raw;
  }
}
