/**
  Building the framework's `Request` from the HTTP layer's request: the URL
  is made absolute from the request target, the `Host` header, the protocol
  version and the local address; every other field is passed through; the
  extension storage starts empty. Every failure is an error string and
  builds no request.
 */
module IronRequest {
  import opened Results
  import opened Decimal
  import opened Http
  import opened UrlText

  const NoHostError: string := "No host specified in request"
  const UnsupportedUriError: string := "Unsupported request URI"
  const ParseErrorPrefix: string := "Couldn't parse requested URL: "

  /** Identity of a stored value's type, the key of the extension storage. */
  type TypeId = nat

  /** A handle on a value stored under some type identity. */
  datatype Extension = Extension(handle: nat)

  /** The per-request extension storage: at most one value per type identity. */
  type TypeMap = map<TypeId, Extension>

  /** The request body: the HTTP layer's reader, not read during construction. */
  datatype Body = Body(reader: HttpReader)

  /** The request given to every middleware; `verb` is the request method. */
  datatype Request = Request(
    url: Url,
    remoteAddr: SocketAddr,
    localAddr: SocketAddr,
    headers: Headers,
    body: Body,
    verb: Method,
    extensions: TypeMap,
    version: HttpVersion)

  /**
    The URL text rebuilt for an origin-form target: from the `Host` header
    when there is one, whatever the version; from the local address when
    there is none and the version is below HTTP/1.1; otherwise the
    missing-host error.
   */
  function RebuiltUrlText(ext: External, protocol: Protocol, version: HttpVersion,
                          host: Option<Host>, localAddr: SocketAddr, path: string): (r: Result<string, string>)
    ensures host.Some? ==>
      r == Ok(protocol.name + "://" + host.value.hostname + PortSuffix(host.value.port) + path)
    ensures host.None? && version.Below(Http11) ==>
      r == Ok(protocol.name + "://" + LocalHostText(ext, localAddr) + ":" + Show(localAddr.port) + path)
    ensures r.Err? <==> host.None? && !version.Below(Http11)
    ensures r.Err? ==> r.error == NoHostError
  {
    match host
    case Some(h) =>
      var scheme := protocol.name + "://";
      assert scheme + (h.hostname + PortSuffix(h.port)) + path == scheme + h.hostname + PortSuffix(h.port) + path;
      Ok(OriginUrl(protocol.name, HostAuthority(h), path))
    case None =>
      if version.Below(Http11) then
        var scheme, ip, port := protocol.name + "://", LocalHostText(ext, localAddr), Show(localAddr.port);
        assert scheme + (ip + (":" + port)) + path == scheme + ip + ":" + port + path;
        Ok(OriginUrl(protocol.name, LocalAuthority(ext, localAddr), path))
      else Err(NoHostError)
  }

  /** Parses rebuilt URL text; a parse error `e` is reported as the fixed prefix followed by `e`. */
  function ParseRebuilt(ext: External, text: string): (r: Result<Url, string>)
    ensures ext.parseUrl(text).Ok? ==> r == ext.parseUrl(text)
    ensures ext.parseUrl(text).Err? ==> r == Err(ParseErrorPrefix + ext.parseUrl(text).error)
  {
    match ext.parseUrl(text)
    case Ok(url) => Ok(url)
    case Err(e) => Err(ParseErrorPrefix + e)
  }

  /**
    The canonical URL of a request, or why there is none: an absolute-form
    target is converted as it is; an origin-form target is rebuilt and
    parsed; the authority and asterisk forms are unsupported.
   */
  function ResolveUrl(ext: External, uri: RequestUri, version: HttpVersion, host: Option<Host>,
                      localAddr: SocketAddr, protocol: Protocol): (r: Result<Url, string>)
    ensures uri.AbsoluteUri? ==> r == ext.fromGenericUrl(uri.url)
    ensures uri.AbsolutePath? && host.None? && !version.Below(Http11) ==> r == Err(NoHostError)
    ensures uri.AbsolutePath? && (host.Some? || version.Below(Http11)) ==>
      r == ParseRebuilt(ext, RebuiltUrlText(ext, protocol, version, host, localAddr, uri.path).value)
    ensures uri.Authority? || uri.Star? ==> r == Err(UnsupportedUriError)
  {
    match uri
    case AbsoluteUri(url) => ext.fromGenericUrl(url)
    case AbsolutePath(path) =>
      (match RebuiltUrlText(ext, protocol, version, host, localAddr, path)
       case Err(e) => Err(e)
       case Ok(text) => ParseRebuilt(ext, text))
    case _ => Err(UnsupportedUriError)
  }

  function UrlOf(ext: External, req: HttpRequest, localAddr: SocketAddr, protocol: Protocol): Result<Url, string> {
    ResolveUrl(ext, req.uri, req.version, ext.hostHeader(req.headers), localAddr, protocol)
  }

  /**
    Builds the request. A request exists exactly when a URL was obtained;
    then the URL is that one, the peer address, headers, method and version
    are the HTTP layer's, the local address is the one given, the body wraps
    the HTTP layer's reader and the extension storage is empty. Otherwise the
    URL error is returned unchanged.
   */
  function FromHttp(ext: External, req: HttpRequest, localAddr: SocketAddr, protocol: Protocol): (r: Result<Request, string>)
    ensures r.Ok? <==> UrlOf(ext, req, localAddr, protocol).Ok?
    ensures r.Err? ==> r.error == UrlOf(ext, req, localAddr, protocol).error
    ensures r.Ok? ==>
      && r.value.url == UrlOf(ext, req, localAddr, protocol).value
      && r.value.remoteAddr == req.remoteAddr
      && r.value.localAddr == localAddr
      && r.value.headers == req.headers
      && r.value.body == Body(req.reader)
      && r.value.verb == req.verb
      && r.value.extensions == map[]
      && r.value.version == req.version
  {
    match UrlOf(ext, req, localAddr, protocol)
    case Err(e) => Err(e)
    case Ok(url) =>
      Ok(Request(url, req.remoteAddr, localAddr, req.headers, Body(req.reader), req.verb, map[], req.version))
  }

  /**
    Absolute-form targets: the outcome is the conversion's, its error
    unchanged, and neither the headers, the version, the local address nor
    the protocol make a difference.
   */
  lemma AbsoluteUriIgnoresContext(ext: External, req1: HttpRequest, req2: HttpRequest,
                                  local1: SocketAddr, local2: SocketAddr, p1: Protocol, p2: Protocol)
    requires req1.uri.AbsoluteUri? && req2.uri == req1.uri
    ensures FromHttp(ext, req1, local1, p1).Err? <==> ext.fromGenericUrl(req1.uri.url).Err?
    ensures FromHttp(ext, req1, local1, p1).Err? ==>
      FromHttp(ext, req1, local1, p1).error == ext.fromGenericUrl(req1.uri.url).error
    ensures FromHttp(ext, req1, local1, p1).Ok? ==>
      FromHttp(ext, req1, local1, p1).value.url == ext.fromGenericUrl(req1.uri.url).value
    ensures FromHttp(ext, req2, local2, p2).Ok? == FromHttp(ext, req1, local1, p1).Ok?
    ensures FromHttp(ext, req2, local2, p2).Ok? ==>
      FromHttp(ext, req2, local2, p2).value.url == FromHttp(ext, req1, local1, p1).value.url
  {
  }

  /** With a `Host` header the version is never consulted. */
  lemma HostHeaderAtAnyVersion(ext: External, req: HttpRequest, v: HttpVersion,
                               localAddr: SocketAddr, protocol: Protocol)
    requires req.uri.AbsolutePath? && ext.hostHeader(req.headers).Some?
    ensures UrlOf(ext, req.(version := v), localAddr, protocol) == UrlOf(ext, req, localAddr, protocol)
  {
  }

  /**
    With a `Host` header, the text handed to the URL parser names exactly the
    header's hostname and port (the port iff the header has one) and the
    request path, under the protocol's scheme.
   */
  lemma HostHeaderUrlNamesHost(ext: External, req: HttpRequest, localAddr: SocketAddr, protocol: Protocol)
    requires req.uri.AbsolutePath? && |req.uri.path| > 0 && req.uri.path[0] == '/'
    requires ext.hostHeader(req.headers).Some? && ReadableHostname(ext.hostHeader(req.headers).value.hostname)
    ensures
      var h := ext.hostHeader(req.headers).value;
      var text := RebuiltUrlText(ext, protocol, req.version, Some(h), localAddr, req.uri.path);
      && text.Ok?
      && ReadOrigin(protocol.name, text.value) == Some(Origin(h.hostname, h.port, req.uri.path))
  {
    var h := ext.hostHeader(req.headers).value;
    HostUrlReadBack(protocol.name, h, req.uri.path);
  }

  /**
    Without a `Host` header below HTTP/1.1, the text handed to the URL parser
    names the local address (bracketed for IPv6) and its port, and the request
    path; the peer address plays no part.
   */
  lemma LocalAddressFallback(ext: External, req: HttpRequest, peer: SocketAddr,
                             localAddr: SocketAddr, protocol: Protocol)
    requires req.uri.AbsolutePath? && |req.uri.path| > 0 && req.uri.path[0] == '/'
    requires ext.hostHeader(req.headers).None? && req.version.Below(Http11)
    requires localAddr.V4? ==> PlainHostname(ext.showIpv4(localAddr.ip4))
    requires localAddr.V6? ==> ']' !in ext.showIpv6(localAddr.ip6) && '/' !in ext.showIpv6(localAddr.ip6)
    ensures
      var text := RebuiltUrlText(ext, protocol, req.version, None, localAddr, req.uri.path);
      && text.Ok?
      && ReadOrigin(protocol.name, text.value) ==
         Some(Origin(LocalHostText(ext, localAddr), Some(localAddr.port), req.uri.path))
      && UrlOf(ext, req, localAddr, protocol) == ParseRebuilt(ext, text.value)
    ensures UrlOf(ext, req.(remoteAddr := peer), localAddr, protocol) == UrlOf(ext, req, localAddr, protocol)
  {
    LocalUrlReadBack(ext, localAddr, protocol.name, req.uri.path);
  }

  /**
    For an origin-form target, the request fails with the missing-host error
    exactly when there is no `Host` header and the version is HTTP/1.1 or
    later, whatever the path.
   */
  lemma MissingHostExactly(ext: External, req: HttpRequest, localAddr: SocketAddr, protocol: Protocol)
    requires req.uri.AbsolutePath?
    ensures FromHttp(ext, req, localAddr, protocol) == Err(NoHostError) <==>
      ext.hostHeader(req.headers).None? && !req.version.Below(Http11)
  {
  }

  /**
    For any target that is not in absolute form, the request fails with the
    unsupported-target error exactly when the target is in authority or
    asterisk form.
   */
  lemma UnsupportedExactly(ext: External, req: HttpRequest, localAddr: SocketAddr, protocol: Protocol)
    requires !req.uri.AbsoluteUri?
    ensures FromHttp(ext, req, localAddr, protocol) == Err(UnsupportedUriError) <==>
      req.uri.Authority? || req.uri.Star?
  {
  }
}
