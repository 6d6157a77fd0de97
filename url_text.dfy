/**
  The text of a rebuilt origin-form URL, `scheme://authority path`, and a
  reader that takes such text apart again. The reader is the reference the
  builders are proved against: whatever authority and path went in come back
  out, so the rebuilt URL names exactly the host, port and path it was built
  from.
 */
module UrlText {
  import opened Results
  import opened Decimal
  import opened Http

  /** `":" + port` when a port is given, nothing otherwise. */
  function PortSuffix(port: Option<Port>): (s: string)
    ensures port.None? <==> s == []
  {
    match port
    case None => ""
    case Some(p) => ":" + Show(p)
  }

  /** The authority taken from a `Host` header: the hostname, then its port iff one was sent. */
  function HostAuthority(h: Host): (s: string)
    ensures |s| >= |h.hostname| && s[..|h.hostname|] == h.hostname
  {
    h.hostname + PortSuffix(h.port)
  }

  /** The text that stands for the local address's IP: bracketed for IPv6. */
  function LocalHostText(ext: External, addr: SocketAddr): string {
    match addr
    case V4(ip, _) => ext.showIpv4(ip)
    case V6(ip, _, _, _) => "[" + ext.showIpv6(ip) + "]"
  }

  /** The authority taken from the local address: `ip:port`, or `[ip]:port` for IPv6. */
  function LocalAuthority(ext: External, addr: SocketAddr): (s: string)
    ensures s == LocalHostText(ext, addr) + PortSuffix(Some(addr.port))
    ensures addr.V6? ==> s[0] == '['
  {
    match addr
    case V4(ip, port) => ext.showIpv4(ip) + ":" + Show(port)
    case V6(ip, port, _, _) => "[" + ext.showIpv6(ip) + "]:" + Show(port)
  }

  function OriginUrl(scheme: string, authority: string, path: string): string {
    scheme + "://" + authority + path
  }

  /** Host, optional port and path recovered from an origin-form URL text. */
  datatype Origin = Origin(host: string, port: Option<nat>, path: string)

  /**
    `s` cut before the first `c`: the part without `c`, and the rest, which is
    empty or starts with `c`. The ensures determine the cut uniquely.
   */
  function SplitAt(s: string, c: char): (r: (string, string))
    ensures r.0 + r.1 == s
    ensures c !in r.0
    ensures r.1 == [] || r.1[0] == c
  {
    if s == [] then ([], [])
    else if s[0] == c then ([], s)
    else
      var t := SplitAt(s[1..], c);
      assert s == [s[0]] + s[1..];
      ([s[0]] + t.0, t.1)
  }

  /** An empty text, or `:` followed by decimal digits. */
  function ReadPort(t: string): Option<Option<nat>> {
    if t == [] then Some(None)
    else if t[0] == ':' && |t| > 1 && AllDigits(t[1..]) then Some(Some(Value(t[1..])))
    else None
  }

  /** An authority is a bracketed host `[...]` or a host without `:`, then an optional port. */
  function ReadAuthority(a: string): Option<(string, Option<nat>)> {
    if |a| > 0 && a[0] == '[' then
      var (inside, tail) := SplitAt(a, ']');
      if tail == [] then None
      else match ReadPort(tail[1..])
        case None => None
        case Some(p) => Some((inside + "]", p))
    else
      var (host, tail) := SplitAt(a, ':');
      match ReadPort(tail)
      case None => None
      case Some(p) => Some((host, p))
  }

  /** Takes `scheme://authority/path...` apart; the path starts at the first `/` after the scheme. */
  function ReadOrigin(scheme: string, s: string): Option<Origin> {
    var prefix := scheme + "://";
    if |s| < |prefix| || s[..|prefix|] != prefix then None
    else
      var (authority, path) := SplitAt(s[|prefix|..], '/');
      match ReadAuthority(authority)
      case None => None
      case Some((host, port)) => Some(Origin(host, port, path))
  }

  /** A hostname the reader can delimit: no `:` and no `/`, not starting with `[`. */
  predicate PlainHostname(h: string) {
    ':' !in h && '/' !in h && (h == [] || h[0] != '[')
  }

  /** A bracketed IP literal such as `[::1]`: one `]`, at the end, and no `/`. */
  predicate BracketedHostname(h: string) {
    |h| >= 2 && h[0] == '[' && h[|h| - 1] == ']' && ']' !in h[..|h| - 1] && '/' !in h
  }

  predicate ReadableHostname(h: string) {
    PlainHostname(h) || BracketedHostname(h)
  }

  /** Cutting `a + b` before `c`, where `a` has no `c` and `b` starts with it, gives back `a` and `b`. */
  lemma {:induction false} SplitAtConcat(a: string, b: string, c: char)
    requires c !in a
    requires b == [] || b[0] == c
    ensures SplitAt(a + b, c) == (a, b)
    decreases |a|
  {
    if a != [] {
      assert (a + b)[0] == a[0] != c;
      assert (a + b)[1..] == a[1..] + b;
      SplitAtConcat(a[1..], b, c);
      assert a == [a[0]] + a[1..];
    } else {
      assert a + b == b;
    }
  }

  /** The port suffix reads back as the port it was written from, and holds no `/`. */
  lemma ReadPortSuffix(port: Option<Port>)
    ensures ReadPort(PortSuffix(port)) == Some(port)
    ensures '/' !in PortSuffix(port)
  {
    if port.Some? {
      var t := PortSuffix(port);
      assert t[1..] == Show(port.value);
      ValueOfShow(port.value);
    }
  }

  /** A readable hostname followed by a port suffix reads back as that hostname and port. */
  lemma ReadAuthorityOf(h: string, port: Option<Port>)
    requires ReadableHostname(h)
    ensures ReadAuthority(h + PortSuffix(port)) == Some((h, port))
    ensures '/' !in h + PortSuffix(port)
  {
    var a := h + PortSuffix(port);
    ReadPortSuffix(port);
    if BracketedHostname(h) {
      var inside := h[..|h| - 1];
      assert a == inside + ("]" + PortSuffix(port));
      SplitAtConcat(inside, "]" + PortSuffix(port), ']');
      assert inside + "]" == h;
      assert ("]" + PortSuffix(port))[1..] == PortSuffix(port);
    } else {
      SplitAtConcat(h, PortSuffix(port), ':');
    }
  }

  /** An origin URL whose authority has no `/` and whose path starts with `/` splits back at that `/`. */
  lemma ReadOriginOf(scheme: string, authority: string, path: string)
    requires '/' !in authority
    requires |path| > 0 && path[0] == '/'
    ensures ReadOrigin(scheme, OriginUrl(scheme, authority, path)) ==
      match ReadAuthority(authority)
      case None => None
      case Some((host, port)) => Some(Origin(host, port, path))
  {
    var prefix := scheme + "://";
    var s := OriginUrl(scheme, authority, path);
    assert s == prefix + (authority + path);
    assert s[..|prefix|] == prefix;
    assert s[|prefix|..] == authority + path;
    SplitAtConcat(authority, path, '/');
  }

  /**
    The URL rebuilt from a `Host` header reads back as that header's hostname
    and port and the request path.
   */
  lemma HostUrlReadBack(scheme: string, h: Host, path: string)
    requires ReadableHostname(h.hostname)
    requires |path| > 0 && path[0] == '/'
    ensures ReadOrigin(scheme, OriginUrl(scheme, HostAuthority(h), path)) ==
      Some(Origin(h.hostname, h.port, path))
  {
    ReadAuthorityOf(h.hostname, h.port);
    ReadOriginOf(scheme, HostAuthority(h), path);
  }

  /**
    The URL rebuilt from the local address reads back as that address's IP
    text (bracketed for IPv6), its port and the request path, provided the
    rendered IP text can be delimited.
   */
  lemma LocalUrlReadBack(ext: External, addr: SocketAddr, scheme: string, path: string)
    requires addr.V4? ==> PlainHostname(ext.showIpv4(addr.ip4))
    requires addr.V6? ==> ']' !in ext.showIpv6(addr.ip6) && '/' !in ext.showIpv6(addr.ip6)
    requires |path| > 0 && path[0] == '/'
    ensures ReadOrigin(scheme, OriginUrl(scheme, LocalAuthority(ext, addr), path)) ==
      Some(Origin(LocalHostText(ext, addr), Some(addr.port), path))
  {
    var h := LocalHostText(ext, addr);
    if addr.V6? {
      var t := ext.showIpv6(addr.ip6);
      assert h == "[" + t + "]";
      assert h[..|h| - 1] == "[" + t;
      assert BracketedHostname(h);
    }
    ReadAuthorityOf(h, Some(addr.port));
    ReadOriginOf(scheme, LocalAuthority(ext, addr), path);
  }
}
