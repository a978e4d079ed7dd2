# cyphernet: universal addresses and elliptic-curve errors

A Dafny model of two pure pieces of the cyphernet networking libraries:

- **Universal addresses** (`Universal`, `universal.dfy`). A destination is either
  `Direct(A)` or `Proxied(ProxiedAddr { proxyAddr, remoteAddr })`. The model
  covers proxy promotion with `try_proxy`, which refuses to re-proxy. It covers
  overwriting with `replace_proxy`, remote-address extraction, `port`
  delegation, and conversion to `net::SocketAddr`. It also covers the
  re-typing `From` conversions and `from_str`, which tries the direct parser and
  falls back to the proxied one. The element type `A` is a type parameter.
  Code defined outside the file is passed in as a function argument: the
  element parser, the `ProxiedAddr` parser, the port functions and the `Into`
  conversions.
- **Crypto error taxonomy** (`Cyphergraphy`, `cyphergraphy.dfy`). The model has
  the error types `EcSkInvalid`, `EcPkInvalid`, `EcdhError` and `EcSerError`,
  and their derived `From` injections. It also has the `ed25519_compact::Error`
  enum with all ten variants, and the adapters that convert it into the error
  types. Each `unreachable!` arm of an adapter becomes a precondition, written
  with the predicates `PkConvertible`, `SkConvertible` and `EcdhConvertible`.
  The curve traits `EcPk`, `EcSk`, `Ecdh` and `EcSign` are records of their
  operations. They carry no laws, because the source states none.
- `Results` (`results.dfy`) is Rust's `Result` with `map`, `map_err` and
  `or_else`.

In `src/addr/universal.rs:164` the `map_err` to `UnknownAddressFormat` has
no effect, because the `or_else` at line 165 discards the error it is given.
When both parsers fail, the caller gets whatever error `ProxiedAddr::from_str`
returns. `Universal.FromStrOutcome` states this: the result is
`Err(UnknownAddressFormat)` exactly when the direct parser fails and the
proxied parser itself returns `UnknownAddressFormat`.

## Model

| member | source | states |
|---|---|---|
| `Universal.HasProxy` | src/addr/universal.rs:28-30 | true exactly on Proxied, false exactly when the address is its own remote taken directly |
| `Universal.AsRemoteAddr` | src/addr/universal.rs:55-60 | the result is the final destination: the address is that value reached directly, or that value reached through its own proxy |
| `Universal.IntoRemoteAddr` | src/addr/universal.rs:62-67 | the by-value extraction returns the same address as `as_remote_addr`, for every address |
| `Universal.ReplaceProxy` | src/addr/universal.rs:32-43 | the result always has a proxy, the proxy is the one given, and the remote address is unchanged |
| `Universal.TryProxy` | src/addr/universal.rs:45-53 | succeeds exactly when no proxy is present. On success it equals `replace_proxy` with `proxy_addr = p` and the old remote address. On failure the error is `ProxyPresent` |
| `Universal.Port` | src/addr/universal.rs:70-77 | a proxied address's port is the proxied address's own port; a direct address's port is the element's port |
| `Universal.ToNetSocketAddr` | src/addr/universal.rs:91-98 | the socket address is the proxied address's conversion when proxied, and the remote element's conversion when direct |
| `Universal.Retype` | src/addr/universal.rs:123-132 | re-typing keeps the variant: Direct stays Direct and Proxied stays Proxied. The payload is the payload's own conversion |
| `Universal.FromStr` | src/addr/universal.rs:158-167 | a direct parse wins. Otherwise a proxied parse gives `Proxied`. On double failure the error is exactly the proxied parser's error |
| `Universal.HasProxyIffTryProxyFails` | src/addr/universal.rs:28-30 | `has_proxy` holds exactly when `try_proxy` fails with `ProxyPresent`, for any proxy offered. It is false exactly when `try_proxy` yields `Proxied{p, remote}` |
| `Universal.TryProxyTwiceFails` | src/addr/universal.rs:47 | after a successful `try_proxy`, a second one always fails, so `try_proxy` is not idempotent |
| `Universal.ReplaceProxyLastWins` | src/addr/universal.rs:32-43 | two replacements equal the last one alone; in particular `replace_proxy` is idempotent |
| `Universal.ReplaceProxyKeepsProxiedRemote` | src/addr/universal.rs:34-37 | on a proxied address, `replace_proxy` changes the proxy field and nothing else |
| `Universal.ProxiedAreReplaceProxyImage` | src/addr/universal.rs:38-51 | the values `replace_proxy` can produce are exactly the proxied addresses, and each proxied address is what `try_proxy` makes of a direct address |
| `Universal.PortConsultsOnlyItsVariant` | src/addr/universal.rs:71-76 | the port depends only on the port function of the address's own variant, applied to its own payload |
| `Universal.RetypeIdentityAndComposition` | src/addr/universal.rs:141-146 | re-typing with identity conversions is the identity; two re-typings equal one by the composed conversions |
| `Universal.FromStrOutcome` | src/addr/universal.rs:161-166 | parsing succeeds exactly when one parser does, and the result is proxied exactly when the direct parser failed. `UnknownAddressFormat` comes back only when the proxied parser returns it |
| `Cyphergraphy.EcdhErrorFromPk` | cyphergraphy/src/lib.rs:53-55 | `EcPkInvalid` is injected as `EcdhError::InvalidPk` carrying it |
| `Cyphergraphy.EcdhErrorFromSk` | cyphergraphy/src/lib.rs:57-59 | `EcSkInvalid` is injected as `EcdhError::InvalidSk` carrying it |
| `Cyphergraphy.EcSerErrorFromPk` | cyphergraphy/src/lib.rs:72-74 | `EcPkInvalid` is injected as `EcSerError::InvalidKey` carrying it |
| `Cyphergraphy.EcSerErrorFromIo` | cyphergraphy/src/lib.rs:65-67 | an I/O error is injected as `EcSerError::Io` carrying it |
| `Cyphergraphy.EcPkInvalidFromEd25519` | cyphergraphy/src/lib.rs:135-153 | defined only on `InvalidPublicKey`, where it gives `EcPkInvalid`; the other nine variants, `WeakPublicKey` among them, are excluded by the precondition |
| `Cyphergraphy.EcSkInvalidFromEd25519` | cyphergraphy/src/lib.rs:155-173 | defined only on `InvalidSecretKey`, where it gives `EcSkInvalid`; the other nine variants are excluded by the precondition |
| `Cyphergraphy.EcSerErrorFromEd25519` | cyphergraphy/src/lib.rs:175-177 | total; every variant becomes `DataEncoding` carrying the error's display text |
| `Cyphergraphy.EcdhErrorFromEd25519` | cyphergraphy/src/lib.rs:179-197 | defined on the three key variants. `WeakPublicKey` gives `WeakPk`, `InvalidPublicKey` gives `InvalidPk` and `InvalidSecretKey` gives `InvalidSk`, each in both directions |
| `Cyphergraphy.ConvertibleDomains` | cyphergraphy/src/lib.rs:135-197 | the ECDH adapter's domain is `WeakPublicKey` plus the public-key and secret-key adapters' domains. Those two are disjoint, and `WeakPublicKey` lies outside both |
| `Cyphergraphy.EcdhAdapterFactorsThroughKeyAdapters` | cyphergraphy/src/lib.rs:181-184 | for a key error, the key adapter followed by the derived injection agrees with the ECDH adapter |
| `Cyphergraphy.EcdhAdapterBijective` | cyphergraphy/src/lib.rs:181-194 | on its reachable domain the ECDH adapter is injective, and every `EcdhError` is produced by some reachable variant |

## Left out

- The Noise XK handshake state machine (`src/noise/xk/handshake.rs`, `ceremony.rs`) and the transport framing (`src/noise/framing`) are not part of this model.
- `with_xk_initiator` and `with_xk_responder` (`src/noise/xk/mod.rs`) only draw an ephemeral key from OS randomness and call that unseen handshake code.
- `EcSk::generate_keypair` reads a random source, so its record of trait operations omits it.
- The curve traits carry no postconditions, because the source states no laws for them. Concrete curve arithmetic (`x25519`, `ed25519`, `digest`) is foreign code.
- `Display` implementations, `to_socket_addr` and `ToSocketAddrs` (src/addr/universal.rs:100-121, 149-156) belong to formatting and to standard-library resolution. `to_socket_addr` has the same shape of delegation as `ToNetSocketAddr`.
- The by-reference `From<&UniversalAddr<A>> for net::SocketAddr` (src/addr/universal.rs:79-89) returns the same value as the by-value conversion `ToNetSocketAddr`. Values carry no references, so it is not a separate member.
- Universal.TryProxy: Rust moves the address into the call, so on `Err` the caller has lost it. Value semantics cannot express that. The model states that nothing is overwritten.
- Universal.FromStr: the element parsers and `AddrParseError`'s other variants are defined outside this file. They appear as function arguments and as `Other(kind)`.
- Cyphergraphy.EcSerErrorFromEd25519: the text of `err.to_string()` comes from a foreign formatter, passed in as `display`. The model does not fix its contents.
- Cyphergraphy.EcPkInvalidFromEd25519: `EcPkInvalid` has a single value, so its contract is carried by the precondition. The same holds for `Cyphergraphy.EcSkInvalidFromEd25519`.
- The `multibase` conversion into `EcSerError` and the `Io` wrapping of foreign I/O errors are foreign encoding and I/O code, beyond the injection `EcSerErrorFromIo`. `EcSerError::InvalidKeyLength` is a datatype variant only, because no code in this file constructs it.
- `#[non_exhaustive]` and the derived `Eq`, `Ord`, `Hash` and `Debug` impls are absent; Dafny datatype equality stands in for `Eq`.
