/** The route manager: apply, reload and teardown over the kernel table. */
module Routing {
  import opened Bytes
  import opened Bits
  import opened Classifier
  import opened KernelRoutes
  import opened Reloads
  import RC = ResolvConf

  datatype Gateway = Gateway(addr: IpAddr, oif: nat)

  datatype Gateways = Gateways(v4: Option<Gateway>, v6: Option<Gateway>)

  function GatewayFor(g: Gateways, f: Family): Option<Gateway> { if f.V4? then g.v4 else g.v6 }

  function Via(g: Gateway): Hop { Hop(Some(g.addr), g.oif) }

  function DefaultKey(f: Family): Cidr { Cidr(Ip(f, 0), 0) }

  /** The default route's gateway and interface, if it has a gateway. */
  function ReadGateway(t: Table, f: Family): Option<Gateway> {
    if DefaultKey(f) in t && t[DefaultKey(f)].gw.Some?
    then Some(Gateway(t[DefaultKey(f)].gw.value, t[DefaultKey(f)].oif)) else None
  }

  function HostKey(ip: IpAddr): Cidr { NewCidr(Entry(ip, Width(ip.fam))) }

  lemma HalfFits(f: Family)
    ensures Pow2(Width(f) - 1) < Pow2(Width(f))
  {
  }

  /** The two halves of the address space, which win over the default route. */
  function Halves(f: Family): (r: seq<Cidr>)
    ensures |r| == 2 && r[0].prefix == 1 && r[1].prefix == 1 && r[0].base.fam == f && r[1].base.fam == f
  {
    HalfFits(f);
    [Cidr(Ip(f, 0), 1), Cidr(Ip(f, Pow2(Width(f) - 1)), 1)]
  }

  // ---- Scripts ----

  function BypassAdds(g: Gateways, entries: seq<Entry>): seq<Op> {
    if entries == [] then []
    else
      (match GatewayFor(g, entries[0].addr.fam)
       case Some(gw) => [Replace(NewCidr(entries[0]), Via(gw))]
       case None => []) + BypassAdds(g, entries[1..])
  }

  function BypassDels(g: Gateways, entries: seq<Entry>): seq<Op> {
    if entries == [] then []
    else
      (match GatewayFor(g, entries[0].addr.fam)
       case Some(gw) => [Delete(NewCidr(entries[0]), Some(gw.addr), gw.oif)]
       case None => []) + BypassDels(g, entries[1..])
  }

  function HostAdd(g: Gateways, ip: IpAddr): seq<Op> { BypassAdds(g, [Entry(ip, Width(ip.fam))]) }

  function HostDel(g: Gateways, ip: IpAddr): seq<Op> { BypassDels(g, [Entry(ip, Width(ip.fam))]) }

  function SplitAdds(f: Family, tun: nat): seq<Op> {
    [Replace(Halves(f)[0], Hop(None, tun)), Replace(Halves(f)[1], Hop(None, tun))]
  }

  function SplitDels(f: Family, tun: nat): seq<Op> {
    [Delete(Halves(f)[0], None, tun), Delete(Halves(f)[1], None, tun)]
  }

  /** Everything that determines the routes to install. */
  datatype Setup = Setup(gws: Gateways, proxy: IpAddr, bypass: seq<Entry>, captureV6: bool, tun: nat)

  predicate SplitsV6(s: Setup) { s.captureV6 && (s.gws.v6.Some? || s.proxy.fam.V6?) }

  function ApplyOps(s: Setup): seq<Op> {
    HostAdd(s.gws, s.proxy) + BypassAdds(s.gws, s.bypass) + SplitAdds(V4, s.tun)
    + (if SplitsV6(s) then SplitAdds(V6, s.tun) else [])
  }

  function ReloadOps(g: Gateways, p: Plan): seq<Op> {
    (if p.proxyMove.Some? then HostDel(g, p.proxyMove.value.0) + HostAdd(g, p.proxyMove.value.1) else [])
    + BypassDels(g, p.remove) + BypassAdds(g, p.add)
  }

  function TeardownOps(s: Setup): seq<Op> {
    HostDel(s.gws, s.proxy) + BypassDels(s.gws, s.bypass) + SplitDels(V4, s.tun)
    + (if s.captureV6 then SplitDels(V6, s.tun) else [])
  }

  // ---- The manager ----

  datatype Manager = Manager(setup: Setup, dnsServer: Option<IpAddr>, applied: bool, table: Table, resolv: RC.Resolv)

  datatype Outcome = Outcome(manager: Manager, ok: bool)

  /** `apply`, when the kernel accepts `routes` insertions and the file system `writes` writes. */
  function Applied(m: Manager, routes: nat, writes: nat): Outcome {
    var g := Gateways(ReadGateway(m.table, V4), ReadGateway(m.table, V6));
    var m1 := m.(setup := m.setup.(gws := g));
    if GatewayFor(g, m.setup.proxy.fam).None? then Outcome(m1, false)
    else
      var p := Exec(m.table, ApplyOps(m1.setup), routes);
      var m2 := m1.(table := p.table);
      if !p.ok then Outcome(m2, false)
      else
        var d := RC.Applied(m.resolv, m.dnsServer, writes);
        Outcome(m2.(resolv := d.state, applied := d.ok || m.applied), d.ok)
  }

  /** The first part of `reload`: the proxy's host route moves. */
  function ProxyMoved(m: Manager, p: Plan, routes: nat): (Outcome, nat) {
    match p.proxyMove
    case None => (Outcome(m, true), routes)
    case Some((from, to)) =>
      var g := m.setup.gws;
      var deleted := m.(table := Run(m.table, HostDel(g, from)));
      if GatewayFor(g, to.fam).None? then (Outcome(deleted, false), routes)
      else
        var x := Exec(deleted.table, HostAdd(g, to), routes);
        if !x.ok then (Outcome(deleted.(table := x.table), false), x.accepts)
        else (Outcome(deleted.(table := x.table, setup := m.setup.(proxy := to)), true), x.accepts)
  }

  function Reloaded(m: Manager, p: Plan, routes: nat, writes: nat): Outcome {
    if !m.applied then Outcome(m, true)
    else
      var (o, left) := ProxyMoved(m, p, routes);
      if !o.ok then o
      else
        var g := o.manager.setup.gws;
        var x := Exec(o.manager.table, BypassDels(g, p.remove) + BypassAdds(g, p.add), left);
        var m1 := o.manager.(table := x.table);
        if !x.ok then Outcome(m1, false)
        else
          var m2 := m1.(setup := m1.setup.(bypass := p.newBypass));
          if !p.dnsChanged then Outcome(m2, true)
          else
            var d := RC.Reloaded(m.resolv, p.dns, writes);
            Outcome(m2.(resolv := d.state, dnsServer := if d.ok then p.dns else m.dnsServer), d.ok)
  }

  function TornDown(m: Manager, writes: nat): Manager {
    if !m.applied then m
    else m.(applied := false, table := Run(m.table, TeardownOps(m.setup)),
            resolv := RC.Restored(m.resolv, writes).state)
  }

  /** The kernel, which accepts `accepts` more insertions. */
  class Kernel {
    var table: Table
    var accepts: nat

    constructor (table: Table, accepts: nat)
      ensures this.table == table && this.accepts == accepts
    {
      this.table, this.accepts := table, accepts;
    }

    method Insert(key: Cidr, hop: Hop) returns (ok: bool)
      modifies this
      ensures Progress(table, ok, accepts) == Exec(old(table), [Replace(key, hop)], old(accepts))
    {
      ok := accepts > 0;
      if ok { table, accepts := table[key := hop], accepts - 1; }
    }

    method Remove(key: Cidr, gw: Option<IpAddr>, oif: nat)
      modifies this`table
      ensures table == Do(old(table), Delete(key, gw, oif))
    {
      if key in table && Matches(table[key], gw, oif) { table := table - {key}; }
    }
  }

  lemma ExecCons(t: Table, op: Op, rest: seq<Op>, accepts: nat)
    ensures Exec(t, [op] + rest, accepts) ==
            var x := Exec(t, [op], accepts); if x.ok then Exec(x.table, rest, x.accepts) else x
  {
    ExecConcat(t, [op], rest, accepts);
  }

  lemma ExecFour(t: Table, a: seq<Op>, b: seq<Op>, c: seq<Op>, d: seq<Op>, accepts: nat)
    ensures Exec(t, a + b + c + d, accepts) ==
            var x := Exec(t, a, accepts); if !x.ok then x else
            var y := Exec(x.table, b, x.accepts); if !y.ok then y else
            var z := Exec(y.table, c, y.accepts); if !z.ok then z else Exec(z.table, d, z.accepts)
  {
    ExecConcat(t, a + b + c, d, accepts);
    ExecConcat(t, a + b, c, accepts);
    ExecConcat(t, a, b, accepts);
  }

  lemma RunFour(t: Table, a: seq<Op>, b: seq<Op>, c: seq<Op>, d: seq<Op>)
    ensures Run(t, a + b + c + d) == Run(Run(Run(Run(t, a), b), c), d)
  {
    RunConcat(t, a + b + c, d);
    RunConcat(t, a + b, c);
    RunConcat(t, a, b);
  }

  lemma RunTwo(t: Table, a: Op, b: Op)
    ensures Run(t, [a, b]) == Do(Do(t, a), b)
  {
    assert [a, b][1..] == [b] && [b][1..] == [];
    assert Run(Do(t, a), [b]) == Do(Do(t, a), b);
  }

  /** Deletions never fail a script. */
  lemma {:induction false} ExecDeletes(t: Table, g: Gateways, entries: seq<Entry>, accepts: nat)
    ensures Exec(t, BypassDels(g, entries), accepts) == Progress(Run(t, BypassDels(g, entries)), true, accepts)
    decreases |entries|
  {
    if entries != [] {
      var ops, rest := BypassDels(g, entries), BypassDels(g, entries[1..]);
      if GatewayFor(g, entries[0].addr.fam).Some? {
        assert ops[1..] == rest;
        ExecDeletes(Do(t, ops[0]), g, entries[1..], accepts);
      } else {
        assert ops == rest;
        ExecDeletes(t, g, entries[1..], accepts);
      }
    }
  }

  class RouteManager {
    const kernel: Kernel
    const dns: RC.Configurator
    const tun: nat
    const captureV6: bool
    var proxyIp: IpAddr
    var bypass: seq<Entry>
    var dnsServer: Option<IpAddr>
    var gws: Gateways
    var applied: bool

    constructor (kernel: Kernel, dns: RC.Configurator, proxyIp: IpAddr, tun: nat, dnsServer: Option<IpAddr>,
                 bypass: seq<Entry>, captureV6: bool)
      ensures this.kernel == kernel && this.dns == dns
      ensures State() == Manager(Setup(Gateways(None, None), proxyIp, bypass, captureV6, tun), dnsServer, false,
                                 kernel.table, dns.State())
    {
      this.kernel, this.dns, this.tun, this.captureV6 := kernel, dns, tun, captureV6;
      this.proxyIp, this.bypass, this.dnsServer := proxyIp, bypass, dnsServer;
      gws, applied := Gateways(None, None), false;
    }

    function State(): Manager
      reads this, kernel, dns
    {
      Manager(Setup(gws, proxyIp, bypass, captureV6, tun), dnsServer, applied, kernel.table, dns.State())
    }

    /** Routes for the entries through their families' gateways; families without one are skipped. */
    method AddBypass(entries: seq<Entry>) returns (ok: bool)
      modifies kernel
      ensures Progress(kernel.table, ok, kernel.accepts) ==
              Exec(old(kernel.table), BypassAdds(gws, entries), old(kernel.accepts))
    {
      ghost var goal := Exec(kernel.table, BypassAdds(gws, entries), kernel.accepts);
      assert entries[0..] == entries;
      for i := 0 to |entries|
        invariant goal == Exec(kernel.table, BypassAdds(gws, entries[i..]), kernel.accepts)
      {
        assert entries[i..][1..] == entries[i + 1..];
        var gateway := GatewayFor(gws, entries[i].addr.fam);
        if gateway.Some? {
          var key, hop := NewCidr(entries[i]), Via(gateway.value);
          ExecCons(kernel.table, Replace(key, hop), BypassAdds(gws, entries[i + 1..]), kernel.accepts);
          ok := kernel.Insert(key, hop);
          if !ok { return; }
        } else {
          assert [] + BypassAdds(gws, entries[i + 1..]) == BypassAdds(gws, entries[i + 1..]);
        }
      }
      ok := true;
    }

    method RemoveBypass(entries: seq<Entry>)
      modifies kernel`table
      ensures kernel.table == Run(old(kernel.table), BypassDels(gws, entries))
    {
      ghost var goal := Run(kernel.table, BypassDels(gws, entries));
      assert entries[0..] == entries;
      for i := 0 to |entries|
        invariant goal == Run(kernel.table, BypassDels(gws, entries[i..]))
      {
        assert entries[i..][1..] == entries[i + 1..];
        var gateway := GatewayFor(gws, entries[i].addr.fam);
        if gateway.Some? {
          var rest := BypassDels(gws, entries[i + 1..]);
          assert ([Delete(NewCidr(entries[i]), Some(gateway.value.addr), gateway.value.oif)] + rest)[1..] == rest;
          kernel.Remove(NewCidr(entries[i]), Some(gateway.value.addr), gateway.value.oif);
        } else {
          assert [] + BypassDels(gws, entries[i + 1..]) == BypassDels(gws, entries[i + 1..]);
        }
      }
    }

    method AddSplits(f: Family) returns (ok: bool)
      modifies kernel
      ensures Progress(kernel.table, ok, kernel.accepts) ==
              Exec(old(kernel.table), SplitAdds(f, tun), old(kernel.accepts))
    {
      var hop := Hop(None, tun);
      ExecCons(kernel.table, Replace(Halves(f)[0], hop), [Replace(Halves(f)[1], hop)], kernel.accepts);
      ok := kernel.Insert(Halves(f)[0], hop);
      if !ok { return; }
      ok := kernel.Insert(Halves(f)[1], hop);
    }

    method RemoveSplits(f: Family)
      modifies kernel`table
      ensures kernel.table == Run(old(kernel.table), SplitDels(f, tun))
    {
      RunTwo(kernel.table, SplitDels(f, tun)[0], SplitDels(f, tun)[1]);
      kernel.Remove(Halves(f)[0], None, tun);
      kernel.Remove(Halves(f)[1], None, tun);
    }

    method Apply() returns (ok: bool)
      modifies this, kernel, dns
      ensures Outcome(State(), ok) == Applied(old(State()), old(kernel.accepts), old(dns.accepts))
    {
      gws := Gateways(ReadGateway(kernel.table, V4), ReadGateway(kernel.table, V6));
      if GatewayFor(gws, proxyIp.fam).None? { return false; }
      ghost var t, n := kernel.table, kernel.accepts;
      ghost var host, direct, v4 := HostAdd(gws, proxyIp), BypassAdds(gws, bypass), SplitAdds(V4, tun);
      ghost var v6 := if SplitsV6(Setup(gws, proxyIp, bypass, captureV6, tun)) then SplitAdds(V6, tun) else [];
      ExecFour(t, host, direct, v4, v6, n);
      ok := AddBypass([Entry(proxyIp, Width(proxyIp.fam))]);
      if !ok { return; }
      ok := AddBypass(bypass);
      if !ok { return; }
      ok := AddSplits(V4);
      if !ok { return; }
      if captureV6 && (gws.v6.Some? || proxyIp.fam.V6?) {
        ok := AddSplits(V6);
        if !ok { return; }
      }
      ok := dns.Apply(dnsServer);
      if !ok { return; }
      applied := true;
    }

    method Reload(plan: Plan) returns (ok: bool)
      modifies this, kernel, dns
      ensures Outcome(State(), ok) == Reloaded(old(State()), plan, old(kernel.accepts), old(dns.accepts))
    {
      if !applied { return true; }
      if plan.proxyMove.Some? {
        var (from, to) := plan.proxyMove.value;
        RemoveBypass([Entry(from, Width(from.fam))]);
        if GatewayFor(gws, to.fam).None? { return false; }
        ok := AddBypass([Entry(to, Width(to.fam))]);
        if !ok { return; }
        proxyIp := to;
      }
      ghost var t, n := kernel.table, kernel.accepts;
      ExecDeletes(t, gws, plan.remove, n);
      ExecConcat(t, BypassDels(gws, plan.remove), BypassAdds(gws, plan.add), n);
      RemoveBypass(plan.remove);
      ok := AddBypass(plan.add);
      if !ok { return; }
      bypass := plan.newBypass;
      if plan.dnsChanged {
        ok := dns.Reload(plan.dns);
        if !ok { return; }
        dnsServer := plan.dns;
      }
      ok := true;
    }

    method Teardown()
      modifies this, kernel, dns
      ensures State() == TornDown(old(State()), old(dns.accepts))
    {
      if !applied { return; }
      applied := false;
      ghost var t := kernel.table;
      ghost var v6 := if captureV6 then SplitDels(V6, tun) else [];
      RunFour(t, HostDel(gws, proxyIp), BypassDels(gws, bypass), SplitDels(V4, tun), v6);
      RemoveBypass([Entry(proxyIp, Width(proxyIp.fam))]);
      RemoveBypass(bypass);
      RemoveSplits(V4);
      if captureV6 { RemoveSplits(V6); }
      dns.Restore();
    }
  }
}
