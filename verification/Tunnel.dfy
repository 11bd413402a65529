/** The running tunnel: configuration reloads from signal to signal. */
module Tunnel {
  import opened Bytes
  import opened Bits
  import opened Classifier
  import opened KernelRoutes
  import opened Reloads
  import opened Routing
  import opened RouteTables
  import opened RouteReload
  import opened RouteRetry
  import opened RouteAgreement
  import RC = ResolvConf

  /** What a reload may touch: the current configuration, the route manager, the proxy
      and routes shared with the relays, and the DNS pool's proxy. */
  datatype World = World(cfg: Config, manager: Manager, proxy: ProxyConfig, routes: RouteTable, poolProxy: ProxyConfig)

  /** One reload signal: the configuration file's content, absent when it is missing or
      invalid, and how many route insertions and file writes the system accepts. */
  datatype Input = Input(cfg: Option<Config>, routes: nat, writes: nat)

  /** `apply_reload` */
  function Signalled(w: World, i: Input): World {
    if i.cfg.None? then w
    else
      var plan := Compute(w.cfg, i.cfg.value);
      if IsNoop(plan) then w.(cfg := i.cfg.value)
      else
        var o := Reloaded(w.manager, plan, i.routes, i.writes);
        if !o.ok then w.(manager := o.manager)
        else
          var poolProxy := if plan.proxyChanged then plan.proxy else w.poolProxy;
          World(i.cfg.value, o.manager, plan.proxy, plan.routeTable, poolProxy)
  }

  function After(w: World, inputs: seq<Input>): World
    decreases |inputs|
  {
    if inputs == [] then w else After(Signalled(w, inputs[0]), inputs[1..])
  }

  /** The tunnel once `apply` has succeeded. */
  function Started(cfg: Config, manager: Manager): World {
    World(cfg, manager, ProxyOf(cfg), TableOf(cfg.bypass), ProxyOf(cfg))
  }

  class Running {
    const manager: RouteManager
    var cfg: Config
    var proxy: ProxyConfig
    var routes: RouteTable
    var poolProxy: ProxyConfig

    constructor (cfg: Config, manager: RouteManager)
      ensures this.manager == manager && State() == Started(cfg, manager.State())
    {
      var table := NewRouteTable(cfg.bypass);
      this.manager, this.cfg := manager, cfg;
      proxy, routes, poolProxy := ProxyOf(cfg), table, ProxyOf(cfg);
    }

    function State(): World
      reads this, manager, manager.kernel, manager.dns
    {
      World(cfg, manager.State(), proxy, routes, poolProxy)
    }

    method ApplyReload(read: Option<Config>)
      modifies this, manager, manager.kernel, manager.dns
      ensures State() == Signalled(old(State()), Input(read, old(manager.kernel.accepts), old(manager.dns.accepts)))
    {
      if read.None? { return; }
      var plan := Compute(cfg, read.value);
      if IsNoop(plan) {
        cfg := read.value;
        return;
      }
      var ok := manager.Reload(plan);
      if !ok { return; }
      proxy := plan.proxy;
      routes := plan.routeTable;
      if plan.proxyChanged { poolProxy := plan.proxy; }
      cfg := read.value;
    }

    /** The signal loop; before each signal the system decides what it will accept. */
    method Loop(inputs: seq<Input>)
      modifies this, manager, manager.kernel, manager.dns
      ensures State() == After(old(State()), inputs)
    {
      assert inputs[0..] == inputs;
      for n := 0 to |inputs|
        invariant After(State(), inputs[n..]) == After(old(State()), inputs)
      {
        manager.kernel.accepts, manager.dns.accepts := inputs[n].routes, inputs[n].writes;
        assert inputs[n..][1..] == inputs[n + 1..];
        ApplyReload(inputs[n].cfg);
      }
    }
  }

  // ---- Which configuration is current ----

  /** The two configurations differ in nothing that a reload looks at. */
  ghost predicate SameSettings(was: Config, now: Config) {
    ProxyOf(was) == ProxyOf(now) && was.dns == now.dns && SameEntries(was.bypass, now.bypass)
  }

  /** A signal makes its configuration the current one exactly when it is valid and differs
      in nothing from the current one or its reload succeeds; otherwise the current one
      stays. The manager moves exactly when it is valid and differs. */
  lemma AdoptsExactly(w: World, i: Input)
    ensures i.cfg.Some? ==>
              var o := Reloaded(w.manager, Compute(w.cfg, i.cfg.value), i.routes, i.writes);
              && Signalled(w, i).cfg == (if SameSettings(w.cfg, i.cfg.value) || o.ok then i.cfg.value else w.cfg)
              && Signalled(w, i).manager == (if SameSettings(w.cfg, i.cfg.value) then w.manager else o.manager)
    ensures i.cfg.None? ==> Signalled(w, i) == w
  {
    if i.cfg.Some? { NoopMeaning(w.cfg, i.cfg.value); }
  }

  /** The last valid configuration that was signalled. */
  function LastGiven(cfg: Config, inputs: seq<Input>): Config
    decreases |inputs|
  {
    if inputs == [] then cfg
    else LastGiven(if inputs[0].cfg.Some? then inputs[0].cfg.value else cfg, inputs[1..])
  }

  // ---- Consistency ----

  /** Relays, DNS pool and classifier follow the current configuration. */
  ghost predicate Consistent(w: World) {
    && w.proxy == ProxyOf(w.cfg) && w.poolProxy == ProxyOf(w.cfg)
    && forall a: IpAddr :: Decide(w.routes, a) == Decide(TableOf(w.cfg.bypass), a)
  }

  lemma ConsistentStep(w: World, i: Input)
    requires Consistent(w)
    ensures Consistent(Signalled(w, i))
  {
    if i.cfg.Some? {
      NoopMeaning(w.cfg, i.cfg.value);
      if IsNoop(Compute(w.cfg, i.cfg.value)) {
        forall a: IpAddr ensures Decide(w.routes, a) == Decide(TableOf(i.cfg.value.bypass), a) {
          SameEntriesDecideAlike(w.cfg.bypass, i.cfg.value.bypass, a);
        }
      }
    }
  }

  /** Reload consistency: after any sequence of invalid, no-op, failed and successful
      reloads the proxy shared with the relays and the DNS pool's proxy are those of the
      current configuration, and the shared table decides as its bypass list says. */
  lemma {:induction false} ReloadsConsistent(w: World, inputs: seq<Input>)
    requires Consistent(w)
    ensures Consistent(After(w, inputs))
    decreases |inputs|
  {
    if inputs != [] {
      ConsistentStep(w, inputs[0]);
      ReloadsConsistent(Signalled(w, inputs[0]), inputs[1..]);
    }
  }

  lemma StartedConsistent(cfg: Config, manager: Manager)
    ensures Consistent(Started(cfg, manager))
  {
  }

  // ---- From start to shutdown ----

  /** Routes and DNS are those of a fresh start with the current configuration on the
      original table and file. */
  ghost predicate InSync(base: Table, initial: RC.Content, w: World) {
    var m := w.manager;
    && m.applied && HasGateway(m.setup) && m.setup.gws == GatewaysOf(base)
    && m.setup.proxy == w.cfg.proxy.ip && SameEntries(m.setup.bypass, w.cfg.bypass)
    && m.table == Fresh(base, m.setup)
    && RC.Faithful(m.resolv, initial) && m.resolv.current == w.cfg.dns
  }

  lemma FreshSameEntries(base: Table, s: Setup, bypass: seq<Entry>)
    requires SameEntries(s.bypass, bypass)
    ensures Fresh(base, s) == Fresh(base, s.(bypass := bypass))
  {
    var d := s.(bypass := bypass);
    assert Keys(s.gws, s.bypass) == Keys(s.gws, bypass);
    forall k ensures At(Fresh(base, s), k) == At(Fresh(base, d), k) {
      FreshAt(base, s, k);
      FreshAt(base, d, k);
    }
    SameEverywhere(Fresh(base, s), Fresh(base, d));
  }

  lemma GoalRoutes(base: Table, initial: RC.Content, w: World, now: Config)
    requires InSync(base, initial, w) && HasGateway(Planned(w.manager.setup, Compute(w.cfg, now)))
    requires Safe(base, SetupOf(w.manager.setup, w.cfg), w.cfg, now)
    ensures var m := Goal(w.manager, Compute(w.cfg, now));
            m.setup == SetupOf(w.manager.setup, now) && m.table == Fresh(base, m.setup)
  {
    var m := w.manager;
    var s := SetupOf(m.setup, w.cfg);
    FreshSameEntries(base, m.setup, w.cfg.bypass);
    assert s == m.setup.(bypass := w.cfg.bypass);
    assert Planned(m.setup, Compute(w.cfg, now)) == SetupOf(s, now);
    ReloadRefinesApply(base, s, w.cfg, now);
  }

  lemma GoalDns(m: Manager, initial: RC.Content, p: Plan, was: Option<IpAddr>)
    requires RC.Faithful(m.resolv, initial) && m.resolv.current == was && p.dnsChanged == (was != p.dns)
    ensures RC.Faithful(Goal(m, p).resolv, initial) && Goal(m, p).resolv.current == p.dns
  {
    RC.FaithfulAfter(m.resolv, [RC.Reload(p.dns, 2)], initial);
    DnsGoal(m.resolv, p.dns, 2);
  }

  lemma SuccessHasGateway(m: Manager, p: Plan, routes: nat, writes: nat)
    requires m.applied && Reloaded(m, p, routes, writes).ok
    ensures p.proxyMove.Some? ==> GatewayFor(m.setup.gws, p.proxyMove.value.1.fam).Some?
  {
    var n := MoveRuns(m, p, routes);
    ReloadTable(m, p, routes, writes);
  }

  /** While a configuration is pending: the same plan still leads where it would have led
      from the last world in sync, `w`. */
  ghost predicate Trying(base: Table, initial: RC.Content, w: World, v: World, pending: Option<Config>) {
    && InSync(base, initial, w)
    && match pending
       case None => v == w
       case Some(now) =>
         && v == w.(manager := v.manager) && v.manager.applied && !IsNoop(Compute(w.cfg, now))
         && v.manager.setup.gws == w.manager.setup.gws
         && Goal(v.manager, Compute(w.cfg, now)) == Goal(w.manager, Compute(w.cfg, now))
         && SetupOf(v.manager.setup, w.cfg) == SetupOf(w.manager.setup, w.cfg)
  }

  /** The signal is ignored, changes nothing, or asks, safely, for a new configuration; as
      long as one is pending, because its reload has failed, it asks for that one. */
  ghost predicate Acceptable(base: Table, v: World, pending: Option<Config>, i: Input) {
    i.cfg.Some? && i.cfg.value != v.cfg ==>
      (pending.None? && IsNoop(Compute(v.cfg, i.cfg.value)))
      || ((pending.None? || pending == i.cfg) && Safe(base, SetupOf(v.manager.setup, v.cfg), v.cfg, i.cfg.value))
  }

  function Pending(v: World, pending: Option<Config>, i: Input): Option<Config> {
    if i.cfg.None? || IsNoop(Compute(v.cfg, i.cfg.value)) then pending
    else if Reloaded(v.manager, Compute(v.cfg, i.cfg.value), i.routes, i.writes).ok then None
    else i.cfg
  }

  /** Every signal is acceptable, and in the end nothing is pending. */
  ghost predicate AllClean(base: Table, v: World, pending: Option<Config>, inputs: seq<Input>)
    decreases |inputs|
  {
    if inputs == [] then pending.None?
    else Acceptable(base, v, pending, inputs[0])
         && AllClean(base, Signalled(v, inputs[0]), Pending(v, pending, inputs[0]), inputs[1..])
  }

  /** Once nothing is pending any more, the last configuration given is the current one. */
  lemma {:induction false} CleanAdopts(base: Table, v: World, pending: Option<Config>, inputs: seq<Input>, cfg: Config)
    requires AllClean(base, v, pending, inputs) && (pending.None? ==> cfg == v.cfg)
    ensures After(v, inputs).cfg == LastGiven(cfg, inputs)
    decreases |inputs|
  {
    if inputs != [] {
      var given := if inputs[0].cfg.Some? then inputs[0].cfg.value else cfg;
      CleanAdopts(base, Signalled(v, inputs[0]), Pending(v, pending, inputs[0]), inputs[1..], given);
    }
  }

  /** Reloads keep to the machine: its gateways, its tun and whether IPv6 is captured. */
  predicate SameMachine(s: Setup, d: Setup) { s.gws == d.gws && s.captureV6 == d.captureV6 && s.tun == d.tun }

  lemma {:induction false} MachineStays(w: World, inputs: seq<Input>)
    ensures SameMachine(w.manager.setup, After(w, inputs).manager.setup)
    decreases |inputs|
  {
    if inputs != [] {
      var i := inputs[0];
      if i.cfg.Some? && w.manager.applied { ReloadSetup(w.manager, Compute(w.cfg, i.cfg.value), i.routes, i.writes); }
      MachineStays(Signalled(w, i), inputs[1..]);
    }
  }

  lemma NoopKeepsSync(base: Table, initial: RC.Content, w: World, now: Config)
    requires InSync(base, initial, w) && IsNoop(Compute(w.cfg, now))
    ensures InSync(base, initial, w.(cfg := now))
  {
    NoopMeaning(w.cfg, now);
  }

  /** A first failure. */
  lemma FailurePends(base: Table, initial: RC.Content, w: World, i: Input)
    requires InSync(base, initial, w) && i.cfg.Some? && !IsNoop(Compute(w.cfg, i.cfg.value))
    requires !Reloaded(w.manager, Compute(w.cfg, i.cfg.value), i.routes, i.writes).ok
    ensures Trying(base, initial, w, Signalled(w, i), i.cfg)
  {
    FailureKeepsGoal(w.manager, Compute(w.cfg, i.cfg.value), i.routes, i.writes);
    ReloadSetup(w.manager, Compute(w.cfg, i.cfg.value), i.routes, i.writes);
  }

  /** A further failure. */
  lemma StillPends(base: Table, initial: RC.Content, w: World, v: World, i: Input)
    requires i.cfg.Some? && Trying(base, initial, w, v, i.cfg) && !IsNoop(Compute(v.cfg, i.cfg.value))
    requires !Reloaded(v.manager, Compute(v.cfg, i.cfg.value), i.routes, i.writes).ok
    ensures Trying(base, initial, w, Signalled(v, i), i.cfg)
  {
    FailureKeepsGoal(v.manager, Compute(v.cfg, i.cfg.value), i.routes, i.writes);
    ReloadSetup(v.manager, Compute(v.cfg, i.cfg.value), i.routes, i.writes);
  }

  /** The world when a reload has led to its goal. */
  lemma GoalInSync(base: Table, initial: RC.Content, w: World, now: Config, d: World)
    requires InSync(base, initial, w) && HasGateway(Planned(w.manager.setup, Compute(w.cfg, now)))
    requires Safe(base, SetupOf(w.manager.setup, w.cfg), w.cfg, now)
    requires d.cfg == now && d.manager == Goal(w.manager, Compute(w.cfg, now))
    ensures InSync(base, initial, d)
  {
    GoalRoutes(base, initial, w, now);
    GoalDns(w.manager, initial, Compute(w.cfg, now), w.cfg.dns);
  }

  /** A success, at the first go or after failures. */
  lemma SuccessSettles(base: Table, initial: RC.Content, w: World, v: World, pending: Option<Config>, i: Input)
    requires Trying(base, initial, w, v, pending) && i.cfg.Some? && (pending.None? || pending == i.cfg)
    requires !IsNoop(Compute(v.cfg, i.cfg.value)) && Safe(base, SetupOf(v.manager.setup, v.cfg), v.cfg, i.cfg.value)
    requires Reloaded(v.manager, Compute(v.cfg, i.cfg.value), i.routes, i.writes).ok
    ensures InSync(base, initial, Signalled(v, i))
  {
    var now := i.cfg.value;
    SuccessIsGoal(v.manager, Compute(v.cfg, now), i.routes, i.writes);
    SuccessHasGateway(v.manager, Compute(v.cfg, now), i.routes, i.writes);
    GoalInSync(base, initial, w, now, Signalled(v, i));
  }

  lemma TryingStep(base: Table, initial: RC.Content, w: World, v: World, pending: Option<Config>, i: Input)
    returns (d: World)
    requires Trying(base, initial, w, v, pending) && Acceptable(base, v, pending, i)
    ensures Trying(base, initial, d, Signalled(v, i), Pending(v, pending, i))
  {
    d := w;
    if i.cfg.Some? {
      NoopMeaning(v.cfg, v.cfg);
      if IsNoop(Compute(v.cfg, i.cfg.value)) {
        if pending.None? {
          NoopKeepsSync(base, initial, w, i.cfg.value);
          d := Signalled(v, i);
        }
      } else if Reloaded(v.manager, Compute(v.cfg, i.cfg.value), i.routes, i.writes).ok {
        SuccessSettles(base, initial, w, v, pending, i);
        d := Signalled(v, i);
      } else if pending.None? {
        FailurePends(base, initial, w, i);
      } else {
        StillPends(base, initial, w, v, i);
      }
    }
  }

  lemma {:induction false} InSyncAfter(base: Table, initial: RC.Content, w: World, v: World, pending: Option<Config>,
                                       inputs: seq<Input>)
    requires Trying(base, initial, w, v, pending) && AllClean(base, v, pending, inputs)
    ensures InSync(base, initial, After(v, inputs))
    decreases |inputs|
  {
    if inputs != [] {
      var d := TryingStep(base, initial, w, v, pending, inputs[0]);
      InSyncAfter(base, initial, d, Signalled(v, inputs[0]), Pending(v, pending, inputs[0]), inputs[1..]);
    }
  }

  /** The manager as it is before `apply`. */
  ghost predicate Untouched(m: Manager, cfg: Config, initial: RC.Content) {
    && !m.applied && m.setup.proxy == cfg.proxy.ip && m.setup.bypass == cfg.bypass && m.dnsServer == cfg.dns
    && m.resolv == RC.Start(Some(initial), m.resolv.backup)
  }

  lemma AppliedInSync(m: Manager, cfg: Config, initial: RC.Content, routes: nat, writes: nat)
    requires Untouched(m, cfg, initial) && Applied(m, routes, writes).ok
    ensures InSync(m.table, initial, Started(cfg, Applied(m, routes, writes).manager))
  {
    var o := Applied(m, routes, writes);
    var s := o.manager.setup;
    var n := ExecIsPrefix(m.table, ApplyOps(s), routes);
    assert ApplyOps(s)[..n] == ApplyOps(s);
    RC.FaithfulAfter(m.resolv, [RC.Apply(m.dnsServer, writes)], initial);
  }

  /** From start to shutdown: after a successful apply and any sequence of signals that are
      ignored, change nothing, or ask safely for a configuration until its reload succeeds,
      that configuration is the current one, routes and DNS are those of a fresh start with
      it, and teardown leaves resolv.conf as it was, with no override and no backup file of
      one left, and the routing table as it was exactly when nothing installed last was
      there before. */
  lemma RoundTrip(m: Manager, cfg: Config, initial: RC.Content, routes: nat, writes: nat, inputs: seq<Input>, last: nat)
    requires Untouched(m, cfg, initial) && Applied(m, routes, writes).ok && last > 0
    requires AllClean(m.table, Started(cfg, Applied(m, routes, writes).manager), None, inputs)
    ensures var w := After(Started(cfg, Applied(m, routes, writes).manager), inputs);
            var end := TornDown(w.manager, last);
            && w.cfg == LastGiven(cfg, inputs) && InSync(m.table, initial, w)
            && !end.applied && end.resolv.file == Some(initial) && end.resolv.current == None
            && (w.cfg.dns.Some? ==> end.resolv.backup == None)
            && (end.table == m.table <==> Undoable(m.table, w.manager.setup))
  {
    var start := Started(cfg, Applied(m, routes, writes).manager);
    AppliedInSync(m, cfg, initial, routes, writes);
    InSyncAfter(m.table, initial, start, start, None, inputs);
    CleanAdopts(m.table, start, None, inputs, cfg);
    TeardownUndoesApply(m.table, After(start, inputs).manager.setup);
  }

  /** All the while the kernel and the classifier agree: after such a history an address
      that the original table routes by its default route at most goes where the last
      configuration given wants it, bypassed traffic where the original table sent it. And
      if its family is captured and has a gateway, the kernel bypasses the tun exactly for
      the current proxy and for what the shared table calls Direct, if and only if the
      address is not covered by bypass networks shorter than two bits alone. */
  lemma KernelFollowsClassifier(m: Manager, cfg: Config, initial: RC.Content, routes: nat, writes: nat,
                                inputs: seq<Input>, a: IpAddr)
    requires Untouched(m, cfg, initial) && Applied(m, routes, writes).ok
    requires AllClean(m.table, Started(cfg, Applied(m, routes, writes).manager), None, inputs)
    requires OnlyDefault(m.table, a) && ValidPrefixes(LastGiven(cfg, inputs).bypass)
    ensures var w := After(Started(cfg, Applied(m, routes, writes).manager), inputs);
            var last := LastGiven(cfg, inputs);
            && Lookup(w.manager.table, a) ==
                 Destination(m.table, last.proxy.ip, last.bypass, m.setup.captureV6, m.setup.tun, a)
            && (Captured(w.manager.setup, a.fam) ==> Agreement(w, a))
  {
    var start := Started(cfg, Applied(m, routes, writes).manager);
    var w := After(start, inputs);
    AppliedInSync(m, cfg, initial, routes, writes);
    InSyncAfter(m.table, initial, start, start, None, inputs);
    CleanAdopts(m.table, start, None, inputs, cfg);
    MachineStays(start, inputs);
    StartedConsistent(cfg, Applied(m, routes, writes).manager);
    ReloadsConsistent(start, inputs);
    DestinationInSync(m.table, initial, w, a);
    if Captured(w.manager.setup, a.fam) { AgreesInSync(m.table, initial, w, a); }
  }

  lemma DestinationInSync(base: Table, initial: RC.Content, w: World, a: IpAddr)
    requires InSync(base, initial, w) && OnlyDefault(base, a) && ValidPrefixes(w.cfg.bypass)
    ensures var s := w.manager.setup;
            Lookup(w.manager.table, a) == Destination(base, w.cfg.proxy.ip, w.cfg.bypass, s.captureV6, s.tun, a)
  {
    FreshSameEntries(base, w.manager.setup, w.cfg.bypass);
    FreshDestination(base, w.manager.setup.(bypass := w.cfg.bypass), a);
  }

  /** Kernel and classifier agree on the address exactly if it is not covered by bypass
      networks shorter than two bits alone; so if all have at least two. */
  ghost predicate Agreement(w: World, a: IpAddr) {
    && ((Tunnelled(w, a) <==> !(a == w.proxy.addr.ip || Decide(w.routes, a).Direct?)) <==>
        (a == w.cfg.proxy.ip || LongCovered(w.cfg.bypass, a) || !Covered(w.cfg.bypass, a)))
    && ((forall e | e in w.cfg.bypass :: e.prefix >= 2) ==>
          (Tunnelled(w, a) <==> !(a == w.proxy.addr.ip || Decide(w.routes, a).Direct?)))
  }

  /** The kernel sends the address into the tun. */
  predicate Tunnelled(w: World, a: IpAddr) {
    Lookup(w.manager.table, a) == Some(Hop(None, w.manager.setup.tun))
  }

  lemma AgreesInSync(base: Table, initial: RC.Content, w: World, a: IpAddr)
    requires InSync(base, initial, w) && Consistent(w)
    requires Captured(w.manager.setup, a.fam) && OnlyDefault(base, a) && ValidPrefixes(w.cfg.bypass)
    ensures Agreement(w, a)
  {
    var s := w.manager.setup.(bypass := w.cfg.bypass);
    FreshSameEntries(base, w.manager.setup, w.cfg.bypass);
    KernelAgreesWithClassifier(base, s, a);
    assert Tunnelled(w, a) <==> !Bypasses(base, s, a);
    assert Decide(w.routes, a) == Decide(TableOf(w.cfg.bypass), a);
  }

  // ---- Going back after a failed reload ----

  lemma NoopSucceeds(m: Manager, p: Plan, routes: nat, writes: nat)
    requires IsNoop(p)
    ensures Reloaded(m, p, routes, writes).ok
  {
    assert BypassDels(m.setup.gws, p.remove) + BypassAdds(m.setup.gws, p.add) == [];
  }

  /** After a failed reload the old configuration is still the current one, so a signal that
      goes back to it changes nothing, whatever the failed reload has done. The table is
      what it was before exactly if what ran of the failed reload was harmless to every
      key. In particular the old proxy's host route, if it went through the gateway, is
      gone exactly if the proxy was to move, unless a bypass network is that very host. */
  lemma FailedReloadNotReverted(w: World, i: Input, back: Input)
    requires i.cfg.Some? && back.cfg == Some(w.cfg)
    requires !Reloaded(w.manager, Compute(w.cfg, i.cfg.value), i.routes, i.writes).ok
    ensures Signalled(Signalled(w, i), back) == Signalled(w, i)
    ensures Signalled(Signalled(w, i), back).manager.table == w.manager.table <==>
            AllHarmless(w.manager, Compute(w.cfg, i.cfg.value), i.routes)
    ensures var g, k := w.manager.setup.gws, HostKey(w.cfg.proxy.ip);
            k !in Keys(g, w.cfg.bypass) + Keys(g, i.cfg.value.bypass) && GatewayFor(g, w.cfg.proxy.ip.fam).Some?
            && At(w.manager.table, k) == Some(HopFor(g, k)) ==>
              (k !in Signalled(Signalled(w, i), back).manager.table <==> w.cfg.proxy.ip != i.cfg.value.proxy.ip)
  {
    var m, now := w.manager, i.cfg.value;
    if IsNoop(Compute(w.cfg, now)) { NoopSucceeds(m, Compute(w.cfg, now), i.routes, i.writes); }
    NoopMeaning(w.cfg, w.cfg);
    ReloadUnchanged(m, Compute(w.cfg, now), i.routes, i.writes);
    if HostKey(w.cfg.proxy.ip) !in Keys(m.setup.gws, w.cfg.bypass) + Keys(m.setup.gws, now.bypass) {
      OldProxyRoute(m, w.cfg, now, i.routes, i.writes);
    }
  }

  lemma ProxyRouteInSync(base: Table, initial: RC.Content, w: World)
    requires InSync(base, initial, w)
    ensures At(w.manager.table, HostKey(w.cfg.proxy.ip)) == Some(HopFor(w.manager.setup.gws, HostKey(w.cfg.proxy.ip)))
  {
    HostKeys(w.manager.setup.gws, w.cfg.proxy.ip);
    HostNotHalf(w.manager.setup, w.cfg.proxy.ip);
    FreshAt(base, w.manager.setup, HostKey(w.cfg.proxy.ip));
  }

  lemma RefusedMoveFails(m: Manager, was: Config, now: Config, writes: nat)
    requires m.applied && was.proxy.ip != now.proxy.ip
    ensures !Reloaded(m, Compute(was, now), 0, writes).ok
  {
  }

  /** A kernel that refuses the new proxy's route: going back does not bring the old one back. */
  lemma FailedMoveNotReverted(base: Table, initial: RC.Content, w: World, now: Config, writes: nat, back: Input)
    requires InSync(base, initial, w) && w.cfg.proxy.ip != now.proxy.ip && back.cfg == Some(w.cfg)
    requires HostKey(w.cfg.proxy.ip) !in Keys(w.manager.setup.gws, w.cfg.bypass) + Keys(w.manager.setup.gws, now.bypass)
    ensures HostKey(w.cfg.proxy.ip) in w.manager.table
    ensures HostKey(w.cfg.proxy.ip) !in Signalled(Signalled(w, Input(Some(now), 0, writes)), back).manager.table
  {
    RefusedMoveFails(w.manager, w.cfg, now, writes);
    ProxyRouteInSync(base, initial, w);
    FailedReloadNotReverted(w, Input(Some(now), 0, writes), back);
  }
}
