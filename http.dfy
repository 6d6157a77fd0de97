/**
  The protocol-level inputs of request normalisation, as the HTTP layer below
  hands them over: the request target, the protocol version, the method, the
  header collection, the socket addresses and the body reader. Parsing of
  URLs, of the typed `Host` header and the textual rendering of IP addresses
  belong to code outside this model; they are gathered in `External`.
 */
module Http {
  import opened Results
  import opened Decimal

  /** Protocol versions in their declaration order, which is the order `<` uses. */
  datatype HttpVersion = Http09 | Http10 | Http11 | Http20
  {
    function Ordinal(): (k: nat)
      ensures k < 4
    {
      match this
      case Http09 => 0
      case Http10 => 1
      case Http11 => 2
      case Http20 => 3
    }

    /** `self < other` on the derived ordering. */
    predicate Below(other: HttpVersion) {
      Ordinal() < other.Ordinal()
    }
  }

  /** A version is below HTTP/1.1 exactly when it is 0.9 or 1.0. */
  lemma BelowHttp11(v: HttpVersion)
    ensures v.Below(Http11) <==> v == Http09 || v == Http10
  {
  }

  /** The request methods; any other token is an extension method. */
  datatype Method =
    | Options | Get | Post | Put | Delete | Head | Trace | Connect | Patch
    | Extension(token: string)

  /** A URL as the generic URL library holds it: its serialisation. */
  datatype GenericUrl = GenericUrl(serialization: string)

  /** The framework's own URL wrapper around a generic URL. */
  datatype Url = Url(generic: GenericUrl)

  /**
    The four forms of request target: origin form (`/path?query`),
    absolute form (`http://host/path`), authority form (`host:port`, used by
    CONNECT) and asterisk form (`*`, used by OPTIONS).
   */
  datatype RequestUri =
    | AbsolutePath(path: string)
    | AbsoluteUri(url: GenericUrl)
    | Authority(authority: string)
    | Star

  /** The raw header collection, field names mapped to their values. */
  datatype Headers = Headers(fields: map<string, seq<string>>)

  /** The typed `Host` header: a hostname and an optional explicit port. */
  datatype Host = Host(hostname: string, port: Option<Port>)

  type Octet = n: nat | n < 0x100
  type Segment = n: nat | n < 0x1_0000
  type U32 = n: nat | n < 0x1_0000_0000
  type Segments = s: seq<Segment> | |s| == 8 witness [0, 0, 0, 0, 0, 0, 0, 0]

  datatype Ipv4Addr = Ipv4Addr(a: Octet, b: Octet, c: Octet, d: Octet)
  datatype Ipv6Addr = Ipv6Addr(segments: Segments)

  /** A socket address of either family; `port` is what `SocketAddr::port` returns. */
  datatype SocketAddr =
    | V4(ip4: Ipv4Addr, port: Port)
    | V6(ip6: Ipv6Addr, port: Port, flowinfo: U32, scopeId: U32)

  /** The protocol the server speaks; `name` is the URL scheme it contributes. */
  datatype Protocol = Protocol(name: string)

  /** A handle on the connection's partial-read body reader (owned by the HTTP layer). */
  datatype HttpReader = HttpReader(connection: nat)

  /** A request as the HTTP layer delivers it, already split into its parts; `verb` is the method. */
  datatype HttpRequest = HttpRequest(
    remoteAddr: SocketAddr,
    verb: Method,
    headers: Headers,
    uri: RequestUri,
    version: HttpVersion,
    reader: HttpReader)

  /**
    The collaborators whose code is not part of this model: URL parsing,
    conversion of a generic URL, lookup and parsing of the `Host` header, and
    the `Display` rendering of IPv4 and IPv6 addresses. Each is an arbitrary
    total function; every property proved holds for all of them.
   */
  datatype External = External(
    parseUrl: string -> Result<Url, string>,
    fromGenericUrl: GenericUrl -> Result<Url, string>,
    hostHeader: Headers -> Option<Host>,
    showIpv4: Ipv4Addr -> string,
    showIpv6: Ipv6Addr -> string)
}
