/** Failures of apply and reload: what they leave behind and what a retry makes of it. */
module RouteRetry {
  import opened Bytes
  import opened Bits
  import opened Classifier
  import opened KernelRoutes
  import opened Reloads
  import opened Routing
  import opened RouteTables
  import opened RouteReload
  import RC = ResolvConf

  // ---- Every route of a reload goes through its family's gateway ----

  lemma {:induction false} SteadyAdds(g: Gateways, entries: seq<Entry>)
    ensures Steady(BypassAdds(g, entries), k => HopFor(g, k))
  {
    if entries != [] { SteadyAdds(g, entries[1..]); }
  }

  lemma {:induction false} SteadyDels(g: Gateways, entries: seq<Entry>)
    ensures Steady(BypassDels(g, entries), k => HopFor(g, k))
  {
    if entries != [] { SteadyDels(g, entries[1..]); }
  }

  lemma SteadyConcat(a: seq<Op>, b: seq<Op>, hop: Cidr -> Hop)
    requires Steady(a, hop) && Steady(b, hop)
    ensures Steady(a + b, hop)
  {
  }

  lemma SteadyReload(g: Gateways, p: Plan)
    ensures Steady(ReloadOps(g, p), k => HopFor(g, k))
  {
    var hop := k => HopFor(g, k);
    SteadyDels(g, p.remove);
    SteadyAdds(g, p.add);
    var move: seq<Op> := [];
    if p.proxyMove.Some? {
      SteadyDels(g, Host(p.proxyMove.value.0));
      SteadyAdds(g, Host(p.proxyMove.value.1));
      move := HostDel(g, p.proxyMove.value.0) + HostAdd(g, p.proxyMove.value.1);
      SteadyConcat(HostDel(g, p.proxyMove.value.0), HostAdd(g, p.proxyMove.value.1), hop);
    }
    SteadyConcat(move, BypassDels(g, p.remove), hop);
    SteadyConcat(move + BypassDels(g, p.remove), BypassAdds(g, p.add), hop);
  }

  // ---- What a reload leaves ----

  /** The setup after the whole plan. */
  function Planned(s: Setup, p: Plan): Setup {
    s.(proxy := if p.proxyMove.Some? then p.proxyMove.value.1 else s.proxy, bypass := p.newBypass)
  }

  function MoveOps(g: Gateways, p: Plan): seq<Op> {
    if p.proxyMove.Some? then HostDel(g, p.proxyMove.value.0) + HostAdd(g, p.proxyMove.value.1) else []
  }

  /** The proxy's move has run in full if it succeeded, and up to some point if not. */
  lemma MoveRuns(m: Manager, p: Plan, routes: nat) returns (n: nat)
    ensures var (o, left) := ProxyMoved(m, p, routes);
            && n <= |MoveOps(m.setup.gws, p)|
            && o.manager.table == Run(m.table, MoveOps(m.setup.gws, p)[..n])
            && (o.ok ==> n == |MoveOps(m.setup.gws, p)|)
            && o.manager == m.(table := o.manager.table, setup := o.manager.setup)
            && (o.manager.setup == m.setup || o.ok)
            && (o.ok ==> o.manager.setup == m.setup.(proxy := Planned(m.setup, p).proxy))
            && (p.proxyMove.Some? && o.ok ==> GatewayFor(m.setup.gws, p.proxyMove.value.1.fam).Some?)
            && (p.proxyMove.Some? ==> n >= |HostDel(m.setup.gws, p.proxyMove.value.0)|)
  {
    var g := m.setup.gws;
    if p.proxyMove.None? {
      n := 0;
    } else {
      var (from, to) := p.proxyMove.value;
      var dels, adds := HostDel(g, from), HostAdd(g, to);
      var j := ExecIsPrefix(Run(m.table, dels), adds, routes);
      if GatewayFor(g, to.fam).None? { j := 0; }
      n := |dels| + j;
      RunConcat(m.table, dels, adds[..j]);
      assert (dels + adds)[..n] == dels + adds[..j];
    }
  }

  lemma ListRuns(t: Table, g: Gateways, p: Plan, routes: nat) returns (n: nat)
    ensures var ops := BypassDels(g, p.remove) + BypassAdds(g, p.add);
            var x := Exec(t, ops, routes);
            n <= |ops| && x.table == Run(t, ops[..n]) && (x.ok ==> n == |ops|)
  {
    n := ExecIsPrefix(t, BypassDels(g, p.remove) + BypassAdds(g, p.add), routes);
  }

  lemma SliceConcat<T>(a: seq<T>, b: seq<T>, n: nat)
    requires n <= |b|
    ensures (a + b)[..|a| + n] == a + b[..n]
    ensures a[..|a|] == a && b[..|b|] == b
  {
  }

  lemma OpsParts(g: Gateways, p: Plan)
    ensures ReloadOps(g, p) == MoveOps(g, p) + (BypassDels(g, p.remove) + BypassAdds(g, p.add))
  {
  }

  /** A reload changes nothing but the table, the proxy, the list and the DNS state. */
  lemma ReloadSetup(m: Manager, p: Plan, routes: nat, writes: nat)
    requires m.applied
    ensures var o := Reloaded(m, p, routes, writes);
            && (o.ok ==> o.manager.setup == Planned(m.setup, p))
            && o.manager.applied && o.manager.setup.gws == m.setup.gws
            && o.manager.setup.captureV6 == m.setup.captureV6 && o.manager.setup.tun == m.setup.tun
            && o.manager.setup.proxy in {m.setup.proxy, Planned(m.setup, p).proxy}
  {
  }

  lemma ReloadTable(m: Manager, p: Plan, routes: nat, writes: nat)
    requires m.applied
    ensures var o := Reloaded(m, p, routes, writes);
            var (moved, left) := ProxyMoved(m, p, routes);
            var lists := BypassDels(m.setup.gws, p.remove) + BypassAdds(m.setup.gws, p.add);
            var x := Exec(moved.manager.table, lists, left);
            && o.manager.table == (if moved.ok then x.table else moved.manager.table)
            && (o.ok ==> moved.ok && x.ok)
  {
    var n := MoveRuns(m, p, routes);
  }

  lemma SliceWithin<T>(a: seq<T>, b: seq<T>, n: nat)
    requires n <= |a|
    ensures (a + b)[..n] == a[..n]
  {
  }

  /** Whether it succeeds or not, a reload has run its script up to some point, to the end
      if it succeeds. */
  lemma ReloadRuns(m: Manager, p: Plan, routes: nat, writes: nat) returns (n: nat)
    requires m.applied
    ensures var o := Reloaded(m, p, routes, writes);
            && n <= |ReloadOps(m.setup.gws, p)|
            && o.manager.table == Run(m.table, ReloadOps(m.setup.gws, p)[..n])
            && (o.ok ==> n == |ReloadOps(m.setup.gws, p)|)
            && (p.proxyMove.Some? ==> n >= |HostDel(m.setup.gws, p.proxyMove.value.0)|)
  {
    var g := m.setup.gws;
    var move, lists := MoveOps(g, p), BypassDels(g, p.remove) + BypassAdds(g, p.add);
    OpsParts(g, p);
    ReloadTable(m, p, routes, writes);
    n := MoveRuns(m, p, routes);
    var (o, left) := ProxyMoved(m, p, routes);
    if o.ok {
      var j := ListRuns(o.manager.table, g, p, left);
      SliceConcat(move, lists, j);
      RunConcat(m.table, move, lists[..j]);
      n := n + j;
    } else {
      SliceWithin(move, lists, n);
    }
  }

  /** The DNS side of a reload: untouched until the routes are done, then one reload of it. */
  lemma ReloadDns(m: Manager, p: Plan, routes: nat, writes: nat)
    requires m.applied
    ensures var o := Reloaded(m, p, routes, writes);
            var d := RC.Reloaded(m.resolv, p.dns, writes);
            && (o.ok ==> if p.dnsChanged then d.ok && o.manager.resolv == d.state && o.manager.dnsServer == p.dns
                         else o.manager.resolv == m.resolv && o.manager.dnsServer == m.dnsServer)
            && (!o.ok ==> (o.manager.resolv == m.resolv || (p.dnsChanged && !d.ok && o.manager.resolv == d.state))
                          && o.manager.dnsServer == m.dnsServer)
  {
  }

  /** Two writes are enough for any change of the override, and more make no difference. */
  lemma DnsGoal(r: RC.Resolv, dns: Option<IpAddr>, writes: nat)
    ensures RC.Reloaded(r, dns, 2).ok
    ensures RC.Reloaded(r, dns, writes).ok ==> RC.Reloaded(r, dns, writes).state == RC.Reloaded(r, dns, 2).state
    ensures !RC.Reloaded(r, dns, writes).ok ==>
              RC.Reloaded(RC.Reloaded(r, dns, writes).state, dns, 2).state == RC.Reloaded(r, dns, 2).state
  {
  }

  /** What the plan is to lead to. */
  function Goal(m: Manager, p: Plan): Manager {
    m.(setup := Planned(m.setup, p), table := Run(m.table, ReloadOps(m.setup.gws, p)),
       resolv := if p.dnsChanged then RC.Reloaded(m.resolv, p.dns, 2).state else m.resolv,
       dnsServer := if p.dnsChanged then p.dns else m.dnsServer)
  }

  lemma SuccessIsGoal(m: Manager, p: Plan, routes: nat, writes: nat)
    requires m.applied && Reloaded(m, p, routes, writes).ok
    ensures Reloaded(m, p, routes, writes).manager == Goal(m, p)
  {
    var ops := ReloadOps(m.setup.gws, p);
    var n := ReloadRuns(m, p, routes, writes);
    assert ops[..n] == ops;
    ReloadSetup(m, p, routes, writes);
    ReloadDns(m, p, routes, writes);
    DnsGoal(m.resolv, p.dns, writes);
  }

  /** A failure leaves the goal where it was: what it has done is done over by a retry. */
  lemma FailureKeepsGoal(m: Manager, p: Plan, routes: nat, writes: nat)
    requires m.applied && !Reloaded(m, p, routes, writes).ok
    ensures var failed := Reloaded(m, p, routes, writes).manager;
            failed.applied && Goal(failed, p) == Goal(m, p)
  {
    var failed := Reloaded(m, p, routes, writes).manager;
    var g, ops := m.setup.gws, ReloadOps(m.setup.gws, p);
    var n := ReloadRuns(m, p, routes, writes);
    ReloadSetup(m, p, routes, writes);
    ReloadDns(m, p, routes, writes);
    SteadyReload(g, p);
    RetryConverges(m.table, ops, k => HopFor(g, k), n);
    DnsGoal(m.resolv, p.dns, writes);
    assert Planned(failed.setup, p) == Planned(m.setup, p);
  }

  /** Retry convergence: if a reload fails, at whatever step, and the same plan then
      succeeds, everything is as if it had succeeded the first time: routes, proxy
      address, bypass list and DNS state. */
  lemma RetrySameAsFirstSuccess(m: Manager, p: Plan, r1: nat, w1: nat, r2: nat, w2: nat, r3: nat, w3: nat)
    requires m.applied && !Reloaded(m, p, r1, w1).ok
    requires Reloaded(Reloaded(m, p, r1, w1).manager, p, r2, w2).ok
    requires Reloaded(m, p, r3, w3).ok
    ensures Reloaded(Reloaded(m, p, r1, w1).manager, p, r2, w2).manager == Reloaded(m, p, r3, w3).manager
  {
    FailureKeepsGoal(m, p, r1, w1);
    SuccessIsGoal(Reloaded(m, p, r1, w1).manager, p, r2, w2);
    SuccessIsGoal(m, p, r3, w3);
  }

  // ---- What failures leave behind ----

  predicate OnlyReplaces(ops: seq<Op>) { forall i | 0 <= i < |ops| :: ops[i].Replace? }

  lemma {:induction false} AddsOnlyReplace(g: Gateways, entries: seq<Entry>)
    ensures OnlyReplaces(BypassAdds(g, entries))
  {
    if entries != [] { AddsOnlyReplace(g, entries[1..]); }
  }

  lemma ApplyOnlyReplaces(s: Setup)
    ensures OnlyReplaces(ApplyOps(s))
  {
    AddsOnlyReplace(s.gws, Host(s.proxy));
    AddsOnlyReplace(s.gws, s.bypass);
  }

  /** What a script of insertions writes to a key in the end. */
  function Written(ops: seq<Op>, k: Cidr): Option<Hop> {
    if ops == [] then None
    else
      var last := ops[|ops| - 1];
      if last.Replace? && last.key == k then Some(last.hop) else Written(ops[..|ops| - 1], k)
  }

  lemma {:induction false} RunWritten(t: Table, ops: seq<Op>, k: Cidr)
    requires OnlyReplaces(ops)
    ensures At(Run(t, ops), k) == if Written(ops, k).Some? then Written(ops, k) else At(t, k)
    decreases |ops|
  {
    if ops != [] {
      var init, last := ops[..|ops| - 1], ops[|ops| - 1];
      RunWritten(t, init, k);
      assert ops == init + [last];
      RunConcat(t, init, [last]);
      assert Run(Run(t, init), [last]) == Do(Run(t, init), last);
    }
  }

  /** The table has all that the insertions write. */
  ghost predicate AlreadyThere(t: Table, ops: seq<Op>) {
    forall k | Written(ops, k).Some? :: At(t, k) == Written(ops, k)
  }

  lemma UnchangedIfThere(t: Table, ops: seq<Op>)
    requires OnlyReplaces(ops)
    ensures Run(t, ops) == t <==> AlreadyThere(t, ops)
  {
    forall k ensures At(Run(t, ops), k) == if Written(ops, k).Some? then Written(ops, k) else At(t, k) {
      RunWritten(t, ops, k);
    }
    if AlreadyThere(t, ops) { SameEverywhere(Run(t, ops), t); }
  }

  /** The insertions that the kernel accepts. */
  function Accepted(ops: seq<Op>, accepts: nat): seq<Op> { if accepts < |ops| then ops[..accepts] else ops }

  lemma {:induction false} ExecAccepted(t: Table, ops: seq<Op>, accepts: nat)
    requires OnlyReplaces(ops)
    ensures Exec(t, ops, accepts).table == Run(t, Accepted(ops, accepts))
    decreases |ops|
  {
    if ops != [] && accepts > 0 {
      ExecAccepted(Do(t, ops[0]), ops[1..], accepts - 1);
      assert Accepted(ops, accepts)[1..] == Accepted(ops[1..], accepts - 1);
    }
  }

  lemma FirstIsHost(s: Setup)
    requires HasGateway(s)
    ensures ApplyOps(s) != [] && ApplyOps(s)[0].key == HostKey(s.proxy)
  {
  }

  lemma {:induction false} WrittenFirst(ops: seq<Op>)
    requires ops != [] && ops[0].Replace?
    ensures Written(ops, ops[0].key).Some?
  {
    if |ops| > 1 { WrittenFirst(ops[..|ops| - 1]); }
  }

  /** A failed apply is not undone: teardown afterwards does nothing, so the table is the
      original one exactly when there was no gateway or the table had, before, all that the
      accepted insertions wrote; if it had no host route for the proxy, that means that no
      insertion was accepted. DNS is not touched unless all routes were accepted. */
  lemma FailedApplyStays(m: Manager, routes: nat, writes: nat, later: nat)
    requires !m.applied && !Applied(m, routes, writes).ok
    ensures var o := Applied(m, routes, writes);
            var accepted := Accepted(ApplyOps(o.manager.setup), routes);
            && TornDown(o.manager, later) == o.manager
            && (TornDown(o.manager, later).table == m.table <==>
                  !HasGateway(o.manager.setup) || AlreadyThere(m.table, accepted))
            && (HasGateway(o.manager.setup) && HostKey(m.setup.proxy) !in m.table ==>
                  (AlreadyThere(m.table, accepted) <==> routes == 0))
            && (!HasGateway(o.manager.setup) || routes < |ApplyOps(o.manager.setup)| ==> o.manager.resolv == m.resolv)
  {
    var o := Applied(m, routes, writes);
    var s := o.manager.setup;
    var ops := ApplyOps(s);
    if HasGateway(s) {
      FirstIsHost(s);
      ApplyOnlyReplaces(s);
      ExecAccepted(m.table, ops, routes);
      UnchangedIfThere(m.table, Accepted(ops, routes));
      if routes < |ops| { ShortBudget(m.table, ops, routes); }
      if routes > 0 { WrittenFirst(Accepted(ops, routes)); }
    }
  }

  /** A kernel that accepts one insertion only: the apply fails and the proxy's route stays. */
  lemma OneRouteStays(m: Manager, writes: nat, later: nat)
    requires !m.applied && ReadGateway(m.table, m.setup.proxy.fam).Some? && HostKey(m.setup.proxy) !in m.table
    ensures !Applied(m, 1, writes).ok && TornDown(Applied(m, 1, writes).manager, later).table != m.table
  {
    var s := m.setup.(gws := Gateways(ReadGateway(m.table, V4), ReadGateway(m.table, V6)));
    ApplyOnlyReplaces(s);
    ShortBudget(m.table, ApplyOps(s), 1);
    FailedApplyStays(m, 1, writes, later);
  }

  lemma {:induction false} ShortBudget(t: Table, ops: seq<Op>, accepts: nat)
    requires OnlyReplaces(ops) && accepts < |ops|
    ensures !Exec(t, ops, accepts).ok
    decreases |ops|
  {
    if accepts > 0 { ShortBudget(Do(t, ops[0]), ops[1..], accepts - 1); }
  }

  /** After teardown, and before any apply, neither a reload nor another teardown changes
      anything. */
  lemma NothingWithoutApply(m: Manager, writes: nat, p: Plan, routes: nat, w: nat)
    ensures var d := TornDown(m, writes);
            Reloaded(d, p, routes, w) == Outcome(d, true) && TornDown(d, w) == d
  {
  }

  // ---- How far a reload gets, and what it changes ----

  /** The part of a script that runs when the kernel accepts so many insertions. */
  function Ran(ops: seq<Op>, accepts: nat): seq<Op>
    decreases |ops|
  {
    if ops == [] then []
    else if ops[0].Delete? then [ops[0]] + Ran(ops[1..], accepts)
    else if accepts == 0 then []
    else [ops[0]] + Ran(ops[1..], accepts - 1)
  }

  lemma {:induction false} ExecRan(t: Table, ops: seq<Op>, accepts: nat)
    ensures Exec(t, ops, accepts).table == Run(t, Ran(ops, accepts))
    decreases |ops|
  {
    if ops != [] && (ops[0].Delete? || accepts > 0) {
      ExecRan(Do(t, ops[0]), ops[1..], if ops[0].Delete? then accepts else accepts - 1);
      assert Ran(ops, accepts)[1..] == Ran(ops[1..], if ops[0].Delete? then accepts else accepts - 1);
    }
  }

  lemma {:induction false} RanPrefix(ops: seq<Op>, accepts: nat)
    ensures Ran(ops, accepts) <= ops
    decreases |ops|
  {
    if ops != [] && (ops[0].Delete? || accepts > 0) {
      RanPrefix(ops[1..], if ops[0].Delete? then accepts else accepts - 1);
    }
  }

  /** The part of a reload's script that runs. Without a gateway for the new proxy it ends
      with the deletion of the old one's route. */
  function ReloadRan(g: Gateways, p: Plan, routes: nat): seq<Op> {
    if p.proxyMove.Some? && GatewayFor(g, p.proxyMove.value.1.fam).None? then HostDel(g, p.proxyMove.value.0)
    else Ran(ReloadOps(g, p), routes)
  }

  lemma MoveExec(m: Manager, p: Plan, routes: nat)
    requires p.proxyMove.Some? ==> GatewayFor(m.setup.gws, p.proxyMove.value.1.fam).Some?
    ensures var (o, left) := ProxyMoved(m, p, routes);
            Exec(m.table, MoveOps(m.setup.gws, p), routes) == Progress(o.manager.table, o.ok, left)
  {
    if p.proxyMove.Some? {
      var (from, to) := p.proxyMove.value;
      ExecConcat(m.table, HostDel(m.setup.gws, from), HostAdd(m.setup.gws, to), routes);
      ExecDeletes(m.table, m.setup.gws, Host(from), routes);
    }
  }

  lemma ReloadExec(m: Manager, p: Plan, routes: nat, writes: nat)
    requires m.applied && (p.proxyMove.Some? ==> GatewayFor(m.setup.gws, p.proxyMove.value.1.fam).Some?)
    ensures Reloaded(m, p, routes, writes).manager.table == Exec(m.table, ReloadOps(m.setup.gws, p), routes).table
  {
    var g := m.setup.gws;
    OpsParts(g, p);
    ExecConcat(m.table, MoveOps(g, p), BypassDels(g, p.remove) + BypassAdds(g, p.add), routes);
    MoveExec(m, p, routes);
    ReloadTable(m, p, routes, writes);
  }

  lemma ReloadRunsRan(m: Manager, p: Plan, routes: nat, writes: nat)
    requires m.applied
    ensures Reloaded(m, p, routes, writes).manager.table == Run(m.table, ReloadRan(m.setup.gws, p, routes))
  {
    if p.proxyMove.None? || GatewayFor(m.setup.gws, p.proxyMove.value.1.fam).Some? {
      ReloadExec(m, p, routes, writes);
      ExecRan(m.table, ReloadOps(m.setup.gws, p), routes);
    }
  }

  lemma {:induction false} RanAll(t: Table, ops: seq<Op>, accepts: nat)
    ensures Exec(t, ops, accepts).ok <==> Ran(ops, accepts) == ops
    decreases |ops|
  {
    if ops != [] && (ops[0].Delete? || accepts > 0) {
      var left := if ops[0].Delete? then accepts else accepts - 1;
      RanAll(Do(t, ops[0]), ops[1..], left);
      assert Ran(ops, accepts) == [ops[0]] + Ran(ops[1..], left) && ops == [ops[0]] + ops[1..];
      assert ([ops[0]] + Ran(ops[1..], left))[1..] == Ran(ops[1..], left);
    }
  }

  /** All routes of the reload are done: there is a gateway for the new proxy, if it moves,
      and no insertion is refused. */
  predicate AllRan(g: Gateways, p: Plan, routes: nat) {
    && (p.proxyMove.Some? ==> GatewayFor(g, p.proxyMove.value.1.fam).Some?)
    && Ran(ReloadOps(g, p), routes) == ReloadOps(g, p)
  }

  lemma HostAddExec(t: Table, g: Gateways, ip: IpAddr, routes: nat)
    requires GatewayFor(g, ip.fam).Some?
    ensures Exec(t, HostAdd(g, ip), routes).ok <==> routes > 0
  {
    var op := Replace(HostKey(ip), Via(GatewayFor(g, ip.fam).value));
    assert Host(ip)[1..] == [] && BypassAdds(g, []) == [];
    assert HostAdd(g, ip) == [op] + BypassAdds(g, Host(ip)[1..]);
    assert HostAdd(g, ip) == [op] && [op][1..] == [];
  }

  lemma MoveSucceeds(m: Manager, p: Plan, routes: nat)
    requires p.proxyMove.Some?
    ensures ProxyMoved(m, p, routes).0.ok <==> GatewayFor(m.setup.gws, p.proxyMove.value.1.fam).Some? && routes > 0
  {
    var (from, to) := p.proxyMove.value;
    if GatewayFor(m.setup.gws, to.fam).Some? {
      HostAddExec(Run(m.table, HostDel(m.setup.gws, from)), m.setup.gws, to, routes);
    }
  }

  lemma RoutesSucceed(m: Manager, p: Plan, routes: nat)
    ensures var (o, left) := ProxyMoved(m, p, routes);
            var lists := BypassDels(m.setup.gws, p.remove) + BypassAdds(m.setup.gws, p.add);
            o.ok && Exec(o.manager.table, lists, left).ok <==> AllRan(m.setup.gws, p, routes)
  {
    var g := m.setup.gws;
    if p.proxyMove.None? || GatewayFor(g, p.proxyMove.value.1.fam).Some? {
      OpsParts(g, p);
      MoveExec(m, p, routes);
      ExecConcat(m.table, MoveOps(g, p), BypassDels(g, p.remove) + BypassAdds(g, p.add), routes);
      RanAll(m.table, ReloadOps(g, p), routes);
    } else {
      MoveSucceeds(m, p, routes);
    }
  }

  /** What a reload records, for every outcome: the new proxy exactly once its own route is
      in, the new list exactly once all routes are done; only then does it touch DNS, and it
      succeeds exactly if that does too. */
  lemma ReloadRecords(m: Manager, p: Plan, routes: nat, writes: nat)
    requires m.applied
    ensures var g, o := m.setup.gws, Reloaded(m, p, routes, writes);
            var moved := p.proxyMove.Some? && GatewayFor(g, p.proxyMove.value.1.fam).Some? && routes > 0;
            var d := RC.Reloaded(m.resolv, p.dns, writes);
            && o.manager.setup.proxy == (if moved then p.proxyMove.value.1 else m.setup.proxy)
            && o.manager.setup.bypass == (if AllRan(g, p, routes) then p.newBypass else m.setup.bypass)
            && o.manager.resolv == (if AllRan(g, p, routes) && p.dnsChanged then d.state else m.resolv)
            && (o.ok <==> AllRan(g, p, routes) && (p.dnsChanged ==> d.ok))
            && o.manager.dnsServer == (if o.ok && p.dnsChanged then p.dns else m.dnsServer)
  {
    RoutesSucceed(m, p, routes);
    if p.proxyMove.Some? { MoveSucceeds(m, p, routes); }
  }

  /** What is done to a key leaves it as it is: nothing, the erasure of a hop that is not
      there, absence where nothing is, or the hop that is there. */
  predicate Harmless(e: Effect, h: Hop, before: Option<Hop>) {
    match e
    case Keep => true
    case Erase => before != Some(h)
    case Absent => before == None
    case Present => before == Some(h)
  }

  lemma {:induction false} SteadyPart(ops: seq<Op>, part: seq<Op>, hop: Cidr -> Hop)
    requires Steady(ops, hop) && part <= ops
    ensures Steady(part, hop)
  {
    forall i | 0 <= i < |part|
      ensures match part[i]
              case Replace(k, h) => h == hop(k)
              case Delete(k, gw, oif) => gw.Some? && hop(k) == Hop(gw, oif)
    {
      assert part[i] == ops[i];
    }
  }

  lemma SteadyRan(g: Gateways, p: Plan, routes: nat)
    ensures Steady(ReloadRan(g, p, routes), k => HopFor(g, k))
  {
    if p.proxyMove.Some? && GatewayFor(g, p.proxyMove.value.1.fam).None? {
      SteadyDels(g, Host(p.proxyMove.value.0));
    } else {
      SteadyReload(g, p);
      RanPrefix(ReloadOps(g, p), routes);
      SteadyPart(ReloadOps(g, p), Ran(ReloadOps(g, p), routes), k => HopFor(g, k));
    }
  }

  /** What runs of the reload is harmless to every key. */
  ghost predicate AllHarmless(m: Manager, p: Plan, routes: nat) {
    var g := m.setup.gws;
    forall k :: Harmless(EffectOn(ReloadRan(g, p, routes), k), HopFor(g, k), At(m.table, k))
  }

  /** Whether it succeeds or fails, a reload leaves the table as it was if and only if, for
      every key, the effect of the part of the script that ran is harmless. */
  lemma ReloadUnchanged(m: Manager, p: Plan, routes: nat, writes: nat)
    requires m.applied
    ensures Reloaded(m, p, routes, writes).manager.table == m.table <==> AllHarmless(m, p, routes)
  {
    var g := m.setup.gws;
    var ran := ReloadRan(g, p, routes);
    ReloadRunsRan(m, p, routes, writes);
    SteadyRan(g, p, routes);
    forall k ensures At(Run(m.table, ran), k) == At(m.table, k) <==>
                     Harmless(EffectOn(ran, k), HopFor(g, k), At(m.table, k))
    {
      RunEffect(m.table, ran, k => HopFor(g, k), k);
    }
    if AllHarmless(m, p, routes) { SameEverywhere(Run(m.table, ran), m.table); }
  }

  // ---- A reload that moves the proxy ----

  predicate NoneOn(ops: seq<Op>, k: Cidr) { forall i | 0 <= i < |ops| :: ops[i].key != k }

  lemma {:induction false} ListsMiss(g: Gateways, entries: seq<Entry>, k: Cidr)
    requires k !in Keys(g, entries)
    ensures NoneOn(BypassAdds(g, entries), k) && NoneOn(BypassDels(g, entries), k)
    decreases |entries|
  {
    if entries != [] {
      KeysFront(g, entries);
      ListsMiss(g, entries[1..], k);
    }
  }

  lemma {:induction false} RunMisses(t: Table, ops: seq<Op>, k: Cidr)
    requires NoneOn(ops, k)
    ensures At(Run(t, ops), k) == At(t, k)
    decreases |ops|
  {
    if ops != [] { RunMisses(Do(t, ops[0]), ops[1..], k); }
  }

  /** What follows the deletion of the old proxy's route. */
  function AfterDeletion(g: Gateways, p: Plan): seq<Op> {
    (if p.proxyMove.Some? then HostAdd(g, p.proxyMove.value.1) else []) + BypassDels(g, p.remove) + BypassAdds(g, p.add)
  }

  lemma DeletionFirst(g: Gateways, p: Plan)
    ensures ReloadOps(g, p) ==
            (if p.proxyMove.Some? then HostDel(g, p.proxyMove.value.0) else []) + AfterDeletion(g, p)
  {
  }

  lemma NoneConcat(a: seq<Op>, b: seq<Op>, k: Cidr)
    requires NoneOn(a, k) && NoneOn(b, k)
    ensures NoneOn(a + b, k)
  {
  }

  lemma OtherHostMisses(g: Gateways, from: IpAddr, to: IpAddr)
    requires from != to
    ensures NoneOn(HostAdd(g, to), HostKey(from))
  {
    FullMask(from);
    HostKeys(g, to);
    ListsMiss(g, Host(to), HostKey(from));
  }

  lemma RestMisses(g: Gateways, was: Config, now: Config)
    requires HostKey(was.proxy.ip) !in Keys(g, was.bypass) + Keys(g, now.bypass)
    ensures NoneOn(AfterDeletion(g, Compute(was, now)), HostKey(was.proxy.ip))
  {
    var k, p := HostKey(was.proxy.ip), Compute(was, now);
    var host := if p.proxyMove.Some? then HostAdd(g, now.proxy.ip) else [];
    DiffKeys(g, was.bypass, now.bypass);
    ListsMiss(g, p.remove, k);
    ListsMiss(g, p.add, k);
    if p.proxyMove.Some? { OtherHostMisses(g, was.proxy.ip, now.proxy.ip); }
    NoneConcat(host, BypassDels(g, p.remove), k);
    NoneConcat(host + BypassDels(g, p.remove), BypassAdds(g, p.add), k);
  }

  lemma SliceAfter<T>(a: seq<T>, b: seq<T>, n: nat)
    requires |a| <= n <= |a + b|
    ensures (a + b)[..n] == a + b[..n - |a|]
  {
  }

  /** However far a reload gets, and whether it succeeds or not, all that happens to the old
      proxy's host route is that, if the proxy's address changes, the route through the
      gateway is erased for good, provided that no bypass network is that very host. */
  lemma OldProxyRoute(m: Manager, was: Config, now: Config, routes: nat, writes: nat)
    requires m.applied
    requires HostKey(was.proxy.ip) !in Keys(m.setup.gws, was.bypass) + Keys(m.setup.gws, now.bypass)
    ensures var g, k := m.setup.gws, HostKey(was.proxy.ip);
            var erased := was.proxy.ip != now.proxy.ip && GatewayFor(g, was.proxy.ip.fam).Some?
                          && At(m.table, k) == Some(HopFor(g, k));
            At(Reloaded(m, Compute(was, now), routes, writes).manager.table, k) ==
              if erased then None else At(m.table, k)
  {
    var g, p, k := m.setup.gws, Compute(was, now), HostKey(was.proxy.ip);
    var deleted, rest := if p.proxyMove.Some? then HostDel(g, was.proxy.ip) else [], AfterDeletion(g, p);
    HostKeys(g, was.proxy.ip);
    DelsAt(m.table, g, Host(was.proxy.ip), k);
    var n := ReloadRuns(m, p, routes, writes);
    DeletionFirst(g, p);
    SliceAfter(deleted, rest, n);
    RunConcat(m.table, deleted, rest[..n - |deleted|]);
    RestMisses(g, was, now);
    RunMisses(Run(m.table, deleted), rest[..n - |deleted|], k);
  }
}
