/** The universal address: a destination reached either directly or through a
    proxy (`src/addr/universal.rs`). The element address type `A` is a type
    parameter; its parser, its port and its conversions are defined outside
    this file, so every operation that needs them takes them as arguments. */
module Universal {
  import opened Results

  /** `std::net::SocketAddr`, opaque here: the proxy's own socket address. */
  type SocketAddr(==)

  /** The `u16` a port number is returned as. */
  newtype u16 = x: int | 0 <= x < 0x1_0000

  /** `ProxiedAddr<A>`: the proxy to dial and the peer it relays to. */
  datatype ProxiedAddr<A> = ProxiedAddr(proxyAddr: SocketAddr, remoteAddr: A)

  /** `UniversalAddr<A>`. */
  datatype UniversalAddr<A> = Proxied(addr: ProxiedAddr<A>) | Direct(remote: A)

  /** `ProxyError`. */
  datatype ProxyError = ProxyPresent

  /** `AddrParseError`. Only `UnknownAddressFormat` is named in this file; the
      variants the element parsers raise are kept apart as `Other`. */
  datatype AddrParseError = UnknownAddressFormat | Other(kind: nat)

  /** `has_proxy`: whether the address goes through a proxy. */
  function HasProxy<A>(u: UniversalAddr<A>): (b: bool)
    ensures b <==> u.Proxied?
    ensures !b <==> u == Direct(AsRemoteAddr(u))
  {
    match u
    case Proxied(_) => true
    case Direct(_) => false
  }

  /** `as_remote_addr`: the final destination, wherever a proxy sits. */
  function AsRemoteAddr<A>(u: UniversalAddr<A>): (r: A)
    ensures u.Direct? ==> u == Direct(r)
    ensures u.Proxied? ==> u == Proxied(ProxiedAddr(u.addr.proxyAddr, r))
  {
    match u
    case Proxied(proxied) => proxied.remoteAddr
    case Direct(socketAddr) => socketAddr
  }

  /** `into_remote_addr`: the by-value twin of `as_remote_addr`. */
  function IntoRemoteAddr<A>(u: UniversalAddr<A>): (r: A)
    ensures r == AsRemoteAddr(u)
  {
    match u
    case Proxied(ProxiedAddr(_, remoteAddr)) => remoteAddr
    case Direct(socketAddr) => socketAddr
  }

  /** `replace_proxy`: route through `proxyAddr`, overwriting any proxy. */
  function ReplaceProxy<A>(u: UniversalAddr<A>, proxyAddr: SocketAddr): (r: UniversalAddr<A>)
    ensures HasProxy(r) && r.addr.proxyAddr == proxyAddr
    ensures AsRemoteAddr(r) == AsRemoteAddr(u)
  {
    match u
    case Proxied(addr) => Proxied(addr.(proxyAddr := proxyAddr))
    case Direct(remoteAddr) => Proxied(ProxiedAddr(proxyAddr, remoteAddr))
  }

  /** `try_proxy`: route a direct address through `proxyAddr`; an address that
      already has a proxy is refused, never overwritten. */
  function TryProxy<A>(u: UniversalAddr<A>, proxyAddr: SocketAddr): (r: Result<UniversalAddr<A>, ProxyError>)
    ensures r.Ok? <==> !HasProxy(u)
    ensures r.Ok? ==> r.value == ReplaceProxy(u, proxyAddr)
    ensures r.Ok? ==> r.value.addr == ProxiedAddr(proxyAddr, AsRemoteAddr(u))
    ensures r.Err? ==> r.error == ProxyPresent
  {
    match u
    case Proxied(_) => Err(ProxyPresent)
    case Direct(remoteAddr) => Ok(Proxied(ProxiedAddr(proxyAddr, remoteAddr)))
  }

  /** `Addr::port` for `UniversalAddr<A>`: delegates to the proxied address's
      port or to the direct address's port. */
  function Port<A>(u: UniversalAddr<A>, proxiedPort: ProxiedAddr<A> -> u16, directPort: A -> u16): (r: u16)
    ensures HasProxy(u) ==> r == proxiedPort(u.addr)
    ensures !HasProxy(u) ==> r == directPort(AsRemoteAddr(u))
  {
    match u
    case Proxied(addr) => proxiedPort(addr)
    case Direct(socket) => directPort(socket)
  }

  /** `From<UniversalAddr<A>> for net::SocketAddr`: the socket address the
      proxied or the direct address converts into. */
  function ToNetSocketAddr<A>(u: UniversalAddr<A>, proxiedInto: ProxiedAddr<A> -> SocketAddr, directInto: A -> SocketAddr): (r: SocketAddr)
    ensures HasProxy(u) ==> r == proxiedInto(u.addr)
    ensures !HasProxy(u) ==> r == directInto(AsRemoteAddr(u))
  {
    match u
    case Proxied(proxied) => proxiedInto(proxied)
    case Direct(socketAddr) => directInto(socketAddr)
  }

  /** The `From` conversions that change the element type of a universal
      address (`SocketAddr<DEFAULT_PORT>` to `net::SocketAddr`, and the same
      under `PeerAddr`): each variant is converted in place. */
  function Retype<A, B>(u: UniversalAddr<A>, proxiedInto: ProxiedAddr<A> -> ProxiedAddr<B>, directInto: A -> B): (r: UniversalAddr<B>)
    ensures HasProxy(r) <==> HasProxy(u)
    ensures HasProxy(u) ==> r.addr == proxiedInto(u.addr)
    ensures !HasProxy(u) ==> AsRemoteAddr(r) == directInto(AsRemoteAddr(u))
  {
    match u
    case Proxied(addr) => Proxied(proxiedInto(addr))
    case Direct(addr) => Direct(directInto(addr))
  }

  /** `FromStr for UniversalAddr<A>`, written as the source chains it: parse a
      direct address, map its error to `UnknownAddressFormat`, and on any
      error fall back to the proxied parser. The fallback ignores the error it
      is given, so the mapped error never reaches the caller. */
  function FromStr<A, E>(s: string, parseDirect: string -> Result<A, E>,
                         parseProxied: string -> Result<ProxiedAddr<A>, AddrParseError>): (r: Result<UniversalAddr<A>, AddrParseError>)
    ensures parseDirect(s).Ok? ==> r == Ok(Direct(parseDirect(s).value))
    ensures parseDirect(s).Err? && parseProxied(s).Ok? ==> r == Ok(Proxied(parseProxied(s).value))
    ensures parseDirect(s).Err? && parseProxied(s).Err? ==> r == Err(parseProxied(s).error)
  {
    parseDirect(s)
      .Map((a: A) => Direct(a))
      .MapErr((_: E) => UnknownAddressFormat)
      .OrElse((_: AddrParseError) => parseProxied(s).Map((p: ProxiedAddr<A>) => Proxied(p)))
  }

  // ---------------------------------------------------------------------------
  // Properties relating the operations

  /** A proxy is present exactly when `try_proxy` refuses, whatever proxy is offered. */
  lemma HasProxyIffTryProxyFails<A>(u: UniversalAddr<A>, proxyAddr: SocketAddr)
    ensures HasProxy(u) <==> TryProxy(u, proxyAddr) == Err(ProxyPresent)
    ensures !HasProxy(u) <==> TryProxy(u, proxyAddr) == Ok(Proxied(ProxiedAddr(proxyAddr, AsRemoteAddr(u))))
  {
  }

  /** Re-proxying is an error, not a no-op: a second `try_proxy` after a
      successful one always fails. */
  lemma TryProxyTwiceFails<A>(u: UniversalAddr<A>, p: SocketAddr, q: SocketAddr)
    ensures TryProxy(u, p).Ok? ==> TryProxy(TryProxy(u, p).value, q) == Err(ProxyPresent)
    ensures TryProxy(u, p).Ok? ==> TryProxy(u, p) != TryProxy(TryProxy(u, p).value, p)
  {
  }

  /** Only the last `replace_proxy` counts; in particular it is idempotent. */
  lemma ReplaceProxyLastWins<A>(u: UniversalAddr<A>, p: SocketAddr, q: SocketAddr)
    ensures ReplaceProxy(ReplaceProxy(u, p), q) == ReplaceProxy(u, q)
    ensures ReplaceProxy(ReplaceProxy(u, p), p) == ReplaceProxy(u, p)
  {
  }

  /** On an address that already has a proxy, `replace_proxy` alters only the
      proxy: a corollary of the contract of `ReplaceProxy`. */
  lemma ReplaceProxyKeepsProxiedRemote<A>(u: UniversalAddr<A>, p: SocketAddr)
    requires HasProxy(u)
    ensures ReplaceProxy(u, p).addr == u.addr.(proxyAddr := p)
  {
  }

  /** The values `replace_proxy` can produce are exactly the proxied addresses,
      and every proxied address is what `try_proxy` makes of its own remote. */
  lemma {:induction false} ProxiedAreReplaceProxyImage<A>(x: UniversalAddr<A>)
    ensures HasProxy(x) <==> exists u: UniversalAddr<A>, p: SocketAddr :: ReplaceProxy(u, p) == x
    ensures HasProxy(x) ==> exists d: A :: TryProxy(Direct(d), x.addr.proxyAddr) == Ok(x)
  {
    if HasProxy(x) {
      var d := AsRemoteAddr(x);
      assert ReplaceProxy(Direct(d), x.addr.proxyAddr) == x;
      assert TryProxy(Direct(d), x.addr.proxyAddr) == Ok(x);
    }
  }

  /** The port consults nothing but the variant's own port function. */
  lemma PortConsultsOnlyItsVariant<A>(u: UniversalAddr<A>,
                                      pp1: ProxiedAddr<A> -> u16, dp1: A -> u16,
                                      pp2: ProxiedAddr<A> -> u16, dp2: A -> u16)
    requires HasProxy(u) ==> pp1(u.addr) == pp2(u.addr)
    requires !HasProxy(u) ==> dp1(AsRemoteAddr(u)) == dp2(AsRemoteAddr(u))
    ensures Port(u, pp1, dp1) == Port(u, pp2, dp2)
  {
  }

  /** Re-typing with identity conversions changes nothing, and two re-typings
      are one re-typing by the composed conversions. */
  lemma RetypeIdentityAndComposition<A, B, C>(u: UniversalAddr<A>,
                                               pi1: ProxiedAddr<A> -> ProxiedAddr<B>, di1: A -> B,
                                               pi2: ProxiedAddr<B> -> ProxiedAddr<C>, di2: B -> C)
    ensures Retype(u, (x: ProxiedAddr<A>) => x, (a: A) => a) == u
    ensures Retype(Retype(u, pi1, di1), pi2, di2)
         == Retype(u, (x: ProxiedAddr<A>) => pi2(pi1(x)), (a: A) => di2(di1(a)))
  {
  }

  /** `from_str` succeeds exactly when one of the two parsers does, prefers the
      direct reading, and on failure reports the proxied parser's own error:
      `UnknownAddressFormat` is returned only if the proxied parser returns it. */
  lemma FromStrOutcome<A, E>(s: string, parseDirect: string -> Result<A, E>,
                             parseProxied: string -> Result<ProxiedAddr<A>, AddrParseError>)
    ensures FromStr(s, parseDirect, parseProxied).Ok? <==> parseDirect(s).Ok? || parseProxied(s).Ok?
    ensures FromStr(s, parseDirect, parseProxied).Ok? ==>
              (HasProxy(FromStr(s, parseDirect, parseProxied).value) <==> parseDirect(s).Err?)
    ensures FromStr(s, parseDirect, parseProxied) == Err(UnknownAddressFormat) <==>
              parseDirect(s).Err? && parseProxied(s) == Err(UnknownAddressFormat)
  {
  }
}
