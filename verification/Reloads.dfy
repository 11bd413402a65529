/** Configurations and the plan that leads from one to the next. */
module Reloads {
  import opened Bytes
  import opened Bits
  import opened Classifier

  datatype SocketAddr = SocketAddr(ip: IpAddr, port: Port)

  /** The fields of a validated configuration that a reload looks at. `dns` is absent
      when the override is off. */
  datatype Config = Config(proxy: SocketAddr, username: Option<string>, password: Option<string>,
                           dns: Option<IpAddr>, bypass: seq<Entry>)

  /** What `validate` guarantees of the bypass list. */
  predicate ValidPrefixes(entries: seq<Entry>) {
    forall e | e in entries :: e.prefix <= Width(e.addr.fam)
  }

  datatype ProxyConfig = ProxyConfig(addr: SocketAddr, username: Option<string>, password: Option<string>)

  function ProxyOf(c: Config): ProxyConfig { ProxyConfig(c.proxy, c.username, c.password) }

  datatype Plan = Plan(proxy: ProxyConfig, routeTable: RouteTable, newBypass: seq<Entry>,
                       add: seq<Entry>, remove: seq<Entry>, dns: Option<IpAddr>, dnsChanged: bool,
                       proxyMove: Option<(IpAddr, IpAddr)>, proxyChanged: bool)

  function Compute(was: Config, now: Config): Plan {
    var diff := DiffCidrs(was.bypass, now.bypass);
    Plan(ProxyOf(now), TableOf(now.bypass), now.bypass, diff.0, diff.1, now.dns, was.dns != now.dns,
         if was.proxy.ip != now.proxy.ip then Some((was.proxy.ip, now.proxy.ip)) else None,
         was.proxy != now.proxy || was.username != now.username || was.password != now.password)
  }

  predicate IsNoop(p: Plan) {
    p.add == [] && p.remove == [] && !p.dnsChanged && p.proxyMove.None? && !p.proxyChanged
  }

  /** A plan does nothing exactly when proxy, credentials and DNS are equal and the bypass
      lists have the same entries. */
  lemma NoopMeaning(was: Config, now: Config)
    ensures IsNoop(Compute(was, now)) <==>
            ProxyOf(was) == ProxyOf(now) && was.dns == now.dns && SameEntries(was.bypass, now.bypass)
  {
    var diff := DiffCidrs(was.bypass, now.bypass);
    assert diff.0 == [] && diff.1 == [] <==> SameEntries(was.bypass, now.bypass);
  }
}
