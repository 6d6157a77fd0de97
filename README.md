# Iron request normalisation, modelled in Dafny

This project models the request-ingestion core of the Iron web framework
(Rust). It has two parts:

- `Request::from_http` turns the HTTP layer's parsed request into Iron's
  `Request`. It rebuilds one absolute URL from the request target, the `Host`
  header, the protocol version and the local socket address, and passes every
  other field through. It can also fail with one of a few error strings.
- The handler shortcuts `itry!` and `iexpect!` each evaluate a fallible or
  optional value. They either continue with the value or end the enclosing
  handler early.

The rules for the URL follow section 5.3 of RFC 7230 (the four forms of a
request target) and section 5.4 of RFC 7230 (`Host` is mandatory from
HTTP/1.1 on). An IPv6 literal in an authority is bracketed as section 3.2.2
of RFC 3986 requires.

Files:

- `results.dfy`: `Option` and `Result`.
- `decimal.dfy`: decimal rendering of a `u16` port, `Show`. Its inverse,
  `Value`, is proved to undo it in both directions.
- `http.dfy`: the inputs. These are `HttpVersion` with its declaration-order
  comparison, the request-target forms, the `Host` header, socket addresses,
  the protocol and the request as the HTTP layer delivers it. `External`
  gathers the collaborators whose code is not modelled. Each is an arbitrary
  total function, and every lemma holds for all of them. They are URL parsing,
  conversion of a generic URL, typed `Host` lookup and IP-address text
  rendering.
- `url_text.dfy`: the builders behind the `format!` calls. It also holds a
  string-level reader, `ReadOrigin`, that takes `scheme://authority/path`
  apart. The builders are proved against this reader: the host, port and path
  that go in come back out.
- `request.dfy`: Iron's `Request` record, the URL decision procedure and
  `FromHttp`, with the lemmas that classify every outcome.
- `macros.dfy`: `itry!` and `iexpect!` as functions returning `Flow`, which is
  `Continue(value)` or `Return(handler result)`. `Then` runs the rest of a
  handler after a shortcut.

## Model

| member | source | states |
|---|---|---|
| `Decimal.Show` | src/request/mod.rs:94 | The port text is a non-empty string of digits with no leading zero, and it starts with `0` only for port 0. |
| `Decimal.ValueOfShow` | src/request/mod.rs:94 | Reading the rendered port text back as a decimal number gives the port. |
| `Decimal.ShowOfValue` | src/request/mod.rs:94 | Every canonical digit string is the rendering of the number it denotes, so rendering is onto the canonical strings. |
| `Decimal.ShowInjective` | src/request/mod.rs:94 | Two different ports never render to the same text. |
| `Decimal.PortWidth` | src/request/mod.rs:94 | A `u16` port renders to at most five digits. |
| `Http.BelowHttp11` | src/request/mod.rs:99 | `v < Http11` holds exactly for HTTP/0.9 and HTTP/1.0 under the declaration order Http09 < Http10 < Http11 < Http20. |
| `UrlText.PortSuffix` | src/request/mod.rs:93-97 | The `:port` part is empty exactly when the `Host` header has no port. |
| `UrlText.HostAuthority` | src/request/mod.rs:93-97 | The authority taken from a `Host` header starts with the header's hostname. |
| `UrlText.LocalAuthority` | src/request/mod.rs:101-116 | The local-address authority is the IP text (bracketed for IPv6) followed by `:` and `local_addr.port()`, and an IPv6 authority starts with `[`. |
| `UrlText.HostUrlReadBack` | src/request/mod.rs:90-98 | The URL text built from a `Host` header reads back as that hostname, that port (present iff the header has one) and the request path. |
| `UrlText.LocalUrlReadBack` | src/request/mod.rs:99-116 | The URL text built from the local address reads back as its IP (bracketed for IPv6), `Some(port)` and the request path. |
| `IronRequest.RebuiltUrlText` | src/request/mod.rs:90-119 | With a `Host` header the text is `name://hostname[:port]path` at any version. Without one and below HTTP/1.1 it is `name://ip:port path` from the local address. It fails exactly when there is no `Host` header and the version is HTTP/1.1 or later, with "No host specified in request". |
| `IronRequest.ParseRebuilt` | src/request/mod.rs:121-124 | A successful parse of the rebuilt text is the URL. A parse error `e` becomes `"Couldn't parse requested URL: " + e`. |
| `IronRequest.ResolveUrl` | src/request/mod.rs:83-127 | An absolute-form target gives exactly the generic-URL conversion's outcome. An origin-form target gives the missing-host error or the parse of the rebuilt text. The authority and asterisk forms give "Unsupported request URI". |
| `IronRequest.FromHttp` | src/request/mod.rs:76-139 | A request is built iff a URL was obtained, and otherwise the URL error is returned unchanged. On success the URL is that one. The peer address, headers, method and version are the input's, the local address is the one given, the body wraps the input's reader and the extensions are empty. |
| `IronRequest.AbsoluteUriIgnoresContext` | src/request/mod.rs:84-87 | For an absolute-form target the outcome, and its error unchanged, is the conversion's. Headers, version, local address and protocol make no difference. |
| `IronRequest.HostHeaderAtAnyVersion` | src/request/mod.rs:90-98 | With a `Host` header the URL outcome is the same at every protocol version. |
| `IronRequest.HostHeaderUrlNamesHost` | src/request/mod.rs:91-98 | With a `Host` header the text handed to the URL parser names exactly the header's hostname, its port iff present, and the request path. |
| `IronRequest.LocalAddressFallback` | src/request/mod.rs:99-116 | Without `Host` below HTTP/1.1 the parsed text names the local address (bracketed for IPv6), `local_addr.port()` and the path. The peer address plays no part. |
| `IronRequest.MissingHostExactly` | src/request/mod.rs:118 | For an origin-form target the result is `Err("No host specified in request")` iff there is no `Host` header and the version is HTTP/1.1 or later, for every path. |
| `IronRequest.UnsupportedExactly` | src/request/mod.rs:126 | For a target not in absolute form the result is `Err("Unsupported request URI")` iff the target is in authority or asterisk form. |
| `Macros.ITry` | src/macros.rs:26-31 | `itry!(r, m)` continues iff `r` is `Ok`, with its value. On `Err(e)` it returns `Err(IronError::new(e, m))`, carrying the original `e`. |
| `Macros.ITryDefault` | src/macros.rs:22-24 | One-argument `itry!` continues iff `Ok`, and its early return is an error with the `InternalServerError` status. |
| `Macros.ITryDefaultModifier` | src/macros.rs:21-24 | One-argument `itry!(r)` equals `itry!(r, status::InternalServerError)`. |
| `Macros.IExpect` | src/macros.rs:41-46 | `iexpect!(o, m)` continues iff `o` is `Some`, with its content. On `None` it returns `Ok(Response::with(m))`. |
| `Macros.IExpectDefault` | src/macros.rs:38-40 | One-argument `iexpect!` continues iff `Some`, and its early return is `Ok` with a `BadRequest` response. |
| `Macros.IExpectDefaultModifier` | src/macros.rs:34-40 | One-argument `iexpect!(o)` equals `iexpect!(o, status::BadRequest)`. |
| `Macros.ITryInHandler` | src/macros.rs:26-31 | A handler using `itry!` returns what its remainder returns on `Ok`. On `Err(e)` it returns the wrapped `e`, and its remainder is not consulted. |
| `Macros.IExpectInHandler` | src/macros.rs:41-46 | A handler using `iexpect!` on `None` returns `Ok(Response::with(m))`, a success, whatever its remainder would do. |
| `Macros.EarlyReturnKinds` | src/macros.rs:26-46 | An early return of `itry!` is always `Err`. An early return of `iexpect!` is always `Ok`. |

## Left out

- The body reader (`Body` and its `Read` impl, src/request/mod.rs:156-172) forwards to the HTTP layer's reader over a borrowed network stream. That is I/O, so the model keeps only a handle on the reader, and `FromHttp` wraps it unread.
- The `Extensible`, `Plugin` and `Set` impls (src/request/mod.rs:174-186) are accessors over type-map and plugin crates whose code is not part of this model. Only the fact that `extensions` starts empty is modelled. Insert, get and remove on the type map are not.
- The `Debug` impl (src/request/mod.rs:60-70) only formats text. The test-only `stub()` (src/request/mod.rs:141-153) relies on uninitialised memory.
- `Url::parse` and `Url::from_generic_url` live in src/request/url.rs, which is not part of this model. The URL grammar is therefore not modelled: both are arbitrary functions in `External`.
- The typed `Host` header lookup (`headers.get::<Host>()`) is an arbitrary function in `External`, and so is the `Display` rendering of IPv4 and IPv6 addresses. Both are standard-library or HTTP-library code.
- `Protocol::name()` is modelled as the `name` field of `Protocol`.
- `IronError::new` and `Response::with` are kept as uninterpreted constructors (`IronError`, `ResponseWith`). The error that `itry!` boxes is one uninterpreted `Error` value, standing for the boxed error trait object. Status codes and modifiers are a small datatype, not the full modifier machinery.
- examples/https.rs starts a TLS listener. It is server plumbing, not part of this core.
- UrlText.HostUrlReadBack: the read-back is proved only for hostnames the reader can delimit. These have no `:` or `/`, or are one bracketed literal without `/`. Other hostnames are still rebuilt exactly as `RebuiltUrlText` states.
- UrlText.LocalUrlReadBack: the read-back assumes the rendered IPv4 text has no `:` or `/`, and the rendered IPv6 text has no `]` or `/`. The rendering itself is not modelled.
- IronRequest.HostHeaderUrlNamesHost: this carries the same hostname restriction as `UrlText.HostUrlReadBack`.
- IronRequest.LocalAddressFallback: this carries the same rendering assumption as `UrlText.LocalUrlReadBack`.
- IronRequest.MissingHostExactly: this is stated only for origin-form targets, because the generic-URL conversion may report any error text for an absolute-form target.
- IronRequest.UnsupportedExactly: this is stated only for targets not in absolute form, for the same reason.
