/** Incremental reload against a fresh apply, and retries after a failure. */
module RouteReload {
  import opened Bytes
  import opened Bits
  import opened Classifier
  import opened KernelRoutes
  import opened Reloads
  import opened Routing
  import opened RouteTables

  /** The same machine under another configuration. */
  function SetupOf(s: Setup, c: Config): Setup { s.(proxy := c.proxy.ip, bypass := c.bypass) }

  predicate HasGateway(s: Setup) { GatewayFor(s.gws, s.proxy.fam).Some? }

  /** The keys a reload erases and does not put back. */
  ghost function Gone(s: Setup, was: Config, now: Config): set<Cidr> {
    var p := Compute(was, now);
    (if p.proxyMove.Some? then Keys(s.gws, Host(was.proxy.ip)) else {}) + Keys(s.gws, p.remove)
    - SplitKeys(SetupOf(s, now)) - Keys(s.gws, p.add)
  }

  /** An incremental reload does the right thing: it puts no gateway route over a half,
      and it erases nothing that the new configuration or the original table wants. */
  ghost predicate Safe(base: Table, s: Setup, was: Config, now: Config) {
    && (forall k | k in Keys(s.gws, Compute(was, now).add) :: k !in SplitKeys(SetupOf(s, now)))
    && (forall k | k in Gone(s, was, now) :: k !in DirectKeys(SetupOf(s, now)) && k !in base)
  }

  ghost predicate SafeAt(base: Table, s: Setup, was: Config, now: Config, k: Cidr) {
    && (k in Keys(s.gws, Compute(was, now).add) ==> k !in SplitKeys(SetupOf(s, now)))
    && (k in Gone(s, was, now) ==> k !in DirectKeys(SetupOf(s, now)) && k !in base)
  }

  lemma FullMask(a: IpAddr)
    ensures Masked(a, Width(a.fam)) == a
  {
    AndOnes(a.bits, Width(a.fam));
  }

  lemma HostKeys(g: Gateways, ip: IpAddr)
    ensures Keys(g, Host(ip)) == if GatewayFor(g, ip.fam).Some? then {HostKey(ip)} else {}
    ensures HostKey(ip) == Cidr(ip, Width(ip.fam))
  {
    FullMask(ip);
    KeysFront(g, Host(ip));
  }

  /** How the lists and their difference cover each other's keys. */
  lemma DiffKeys(g: Gateways, was: seq<Entry>, now: seq<Entry>)
    ensures Keys(g, Minus(now, was)) <= Keys(g, now) <= Keys(g, Minus(now, was)) + Keys(g, was)
    ensures Keys(g, Minus(was, now)) <= Keys(g, was) <= Keys(g, Minus(was, now)) + Keys(g, now)
  {
    forall k | k in Keys(g, now) ensures k in Keys(g, Minus(now, was)) + Keys(g, was) {
      var e :| e in now && GatewayFor(g, e.addr.fam).Some? && NewCidr(e) == k;
      assert e in Minus(now, was) || e in was;
    }
    forall k | k in Keys(g, was) ensures k in Keys(g, Minus(was, now)) + Keys(g, now) {
      var e :| e in was && GatewayFor(g, e.addr.fam).Some? && NewCidr(e) == k;
      assert e in Minus(was, now) || e in now;
    }
  }

  lemma RunThree(t: Table, a: seq<Op>, b: seq<Op>, c: seq<Op>)
    ensures Run(t, a + b + c) == Run(Run(Run(t, a), b), c)
  {
    RunConcat(t, a + b, c);
    RunConcat(t, a, b);
  }

  /** The reload's effect on one key. */
  ghost function ReloadedAt(t: Table, g: Gateways, p: Plan, k: Cidr): Option<Hop> {
    var hop := Some(HopFor(g, k));
    var moved :=
      if p.proxyMove.None? then At(t, k)
      else if k in Keys(g, Host(p.proxyMove.value.1)) then hop
      else if k in Keys(g, Host(p.proxyMove.value.0)) && At(t, k) == hop then None
      else At(t, k);
    if k in Keys(g, p.add) then hop
    else if k in Keys(g, p.remove) && moved == hop then None
    else moved
  }

  lemma ReloadAt(t: Table, g: Gateways, p: Plan, k: Cidr)
    ensures At(Run(t, ReloadOps(g, p)), k) == ReloadedAt(t, g, p, k)
  {
    var move := if p.proxyMove.Some? then HostDel(g, p.proxyMove.value.0) + HostAdd(g, p.proxyMove.value.1) else [];
    RunThree(t, move, BypassDels(g, p.remove), BypassAdds(g, p.add));
    var t1 := Run(t, move);
    DelsAt(t1, g, p.remove, k);
    AddsAt(Run(t1, BypassDels(g, p.remove)), g, p.add, k);
    if p.proxyMove.Some? {
      var (from, to) := p.proxyMove.value;
      RunConcat(t, HostDel(g, from), HostAdd(g, to));
      DelsAt(t, g, Host(from), k);
      AddsAt(Run(t, HostDel(g, from)), g, Host(to), k);
    }
  }

  lemma SplitsUnchanged(s: Setup, now: Config)
    requires HasGateway(s) && HasGateway(SetupOf(s, now))
    ensures SplitKeys(SetupOf(s, now)) == SplitKeys(s)
  {
  }

  lemma HostNotHalf(s: Setup, ip: IpAddr)
    ensures HostKey(ip) !in SplitKeys(s)
  {
  }

  /** What matters about one key: whether it is a half, whether its network was added,
      removed, in the old list, in the new list, the old or the new proxy's host, and
      whether the proxy moved. */
  datatype Facts = Facts(half: bool, added: bool, removed: bool, oldList: bool, newList: bool,
                         oldHost: bool, newHost: bool, moved: bool)
  {
    predicate Possible(tun: Hop, hop: Hop) {
      && (half ==> !oldHost && !newHost) && (added ==> newList) && (removed ==> oldList)
      && (newList ==> added || oldList) && (oldList ==> removed || newList)
      && (if moved then !(oldHost && newHost) else oldHost == newHost)
      && (hop != tun || !(oldList || newList || oldHost || newHost))
    }

    function Before(tun: Hop, hop: Hop, base: Option<Hop>): Option<Hop> {
      if half then Some(tun) else if oldHost || oldList then Some(hop) else base
    }

    function Result(tun: Hop, hop: Hop, base: Option<Hop>): Option<Hop> {
      var t0 := Before(tun, hop, base);
      var t1 := if !moved then t0 else if newHost then Some(hop) else if oldHost && t0 == Some(hop) then None else t0;
      if added then Some(hop) else if removed && t1 == Some(hop) then None else t1
    }

    function Wanted(tun: Hop, hop: Hop, base: Option<Hop>): Option<Hop> {
      if half then Some(tun) else if newHost || newList then Some(hop) else base
    }

    predicate Fine(base: Option<Hop>) {
      && !(added && half)
      && !(((moved && oldHost) || removed) && !half && !added && (newHost || newList || base.Some?))
    }
  }

  lemma OneKey(f: Facts, tun: Hop, hop: Hop, base: Option<Hop>)
    requires f.Possible(tun, hop)
    ensures f.Result(tun, hop, base) == f.Wanted(tun, hop, base) <==> f.Fine(base)
  {
  }

  ghost function FactsOf(s: Setup, was: Config, now: Config, k: Cidr): Facts {
    var g, p := s.gws, Compute(was, now);
    Facts(k in SplitKeys(SetupOf(s, now)), k in Keys(g, p.add), k in Keys(g, p.remove), k in Keys(g, was.bypass),
          k in Keys(g, now.bypass), k in Keys(g, Host(was.proxy.ip)), k in Keys(g, Host(now.proxy.ip)),
          was.proxy.ip != now.proxy.ip)
  }

  lemma FactsPossible(s: Setup, was: Config, now: Config, k: Cidr)
    requires s.proxy == was.proxy.ip && s.bypass == was.bypass
    requires HasGateway(s) && HasGateway(SetupOf(s, now))
    ensures FactsOf(s, was, now, k).Possible(Hop(None, s.tun), HopFor(s.gws, k))
  {
    var d := SetupOf(s, now);
    HostKeys(s.gws, was.proxy.ip);
    HostKeys(s.gws, now.proxy.ip);
    HostNotHalf(d, was.proxy.ip);
    HostNotHalf(d, now.proxy.ip);
    DiffKeys(s.gws, was.bypass, now.bypass);
    if k in DirectKeys(s) { DirectHopNotTun(s, k); }
    if k in DirectKeys(d) { DirectHopNotTun(d, k); }
  }

  lemma RefinesAt(base: Table, s: Setup, was: Config, now: Config, k: Cidr)
    requires s.proxy == was.proxy.ip && s.bypass == was.bypass
    requires HasGateway(s) && HasGateway(SetupOf(s, now))
    ensures ReloadedAt(Fresh(base, s), s.gws, Compute(was, now), k) == InstalledAt(base, SetupOf(s, now), k)
       <==> SafeAt(base, s, was, now, k)
  {
    var f, tun, hop := FactsOf(s, was, now, k), Hop(None, s.tun), HopFor(s.gws, k);
    FactsPossible(s, was, now, k);
    OneKey(f, tun, hop, At(base, k));
    FreshAt(base, s, k);
    SplitsUnchanged(s, now);
    assert At(Fresh(base, s), k) == f.Before(tun, hop, At(base, k));
    assert ReloadedAt(Fresh(base, s), s.gws, Compute(was, now), k) == f.Result(tun, hop, At(base, k));
    assert InstalledAt(base, SetupOf(s, now), k) == f.Wanted(tun, hop, At(base, k));
    assert SafeAt(base, s, was, now, k) <==> f.Fine(At(base, k));
  }

  /** An incremental reload leaves exactly the table that a fresh apply of the new
      configuration on the original table would, if and only if it is safe. */
  lemma ReloadRefinesApply(base: Table, s: Setup, was: Config, now: Config)
    requires s.proxy == was.proxy.ip && s.bypass == was.bypass
    requires HasGateway(s) && HasGateway(SetupOf(s, now))
    ensures Run(Fresh(base, s), ReloadOps(s.gws, Compute(was, now))) == Fresh(base, SetupOf(s, now))
       <==> Safe(base, s, was, now)
  {
    var t := Run(Fresh(base, s), ReloadOps(s.gws, Compute(was, now)));
    var u := Fresh(base, SetupOf(s, now));
    forall k ensures At(t, k) == At(u, k) <==> SafeAt(base, s, was, now, k) {
      ReloadAt(Fresh(base, s), s.gws, Compute(was, now), k);
      FreshAt(base, SetupOf(s, now), k);
      RefinesAt(base, s, was, now, k);
    }
    if Safe(base, s, was, now) { SameEverywhere(t, u); }
    if t == u { SafeEverywhere(base, s, was, now); }
  }

  lemma SafeEverywhere(base: Table, s: Setup, was: Config, now: Config)
    requires forall k :: SafeAt(base, s, was, now, k)
    ensures Safe(base, s, was, now)
  {
    forall k | k in Keys(s.gws, Compute(was, now).add) ensures k !in SplitKeys(SetupOf(s, now)) {
      assert SafeAt(base, s, was, now, k);
    }
    forall k | k in Gone(s, was, now) ensures k !in DirectKeys(SetupOf(s, now)) && k !in base {
      assert SafeAt(base, s, was, now, k);
    }
  }

  // ---- When a reload is safe, in terms of the configurations ----

  /** No two entries of the lists share a network without being equal, no new entry is a
      half, the proxies' addresses are in neither list, and nothing installed was there before. */
  ghost predicate NoCollisions(base: Table, s: Setup, was: Config, now: Config) {
    && (forall e, f | e in was.bypass && f in now.bypass && NewCidr(e) == NewCidr(f) :: e == f)
    && (forall e | e in now.bypass :: NewCidr(e) !in SplitKeys(SetupOf(s, now)))
    && (forall e | e in was.bypass || e in now.bypass ::
          NewCidr(e) != HostKey(was.proxy.ip) && NewCidr(e) != HostKey(now.proxy.ip))
    && DirectKeys(SetupOf(s, was)) !! base.Keys
  }

  lemma RemovedNotWanted(base: Table, s: Setup, was: Config, now: Config, k: Cidr)
    requires NoCollisions(base, s, was, now) && k in Keys(s.gws, Minus(was.bypass, now.bypass))
    ensures k !in Keys(s.gws, now.bypass) && k != HostKey(now.proxy.ip) && k in Keys(s.gws, was.bypass)
  {
    var e :| e in Minus(was.bypass, now.bypass) && GatewayFor(s.gws, e.addr.fam).Some? && NewCidr(e) == k;
  }

  lemma HostNotWanted(base: Table, s: Setup, was: Config, now: Config)
    requires NoCollisions(base, s, was, now) && was.proxy.ip != now.proxy.ip
    ensures HostKey(was.proxy.ip) !in Keys(s.gws, now.bypass) && HostKey(was.proxy.ip) != HostKey(now.proxy.ip)
  {
    FullMask(was.proxy.ip);
    FullMask(now.proxy.ip);
  }

  lemma NoCollisionsIsSafe(base: Table, s: Setup, was: Config, now: Config)
    requires NoCollisions(base, s, was, now)
    ensures Safe(base, s, was, now)
  {
    var g := s.gws;
    var before, after := SetupOf(s, was), SetupOf(s, now);
    HostKeys(g, was.proxy.ip);
    HostKeys(g, now.proxy.ip);
    DiffKeys(g, was.bypass, now.bypass);
    forall k | k in Gone(s, was, now) ensures k !in DirectKeys(after) && k !in base {
      if k in Keys(g, Minus(was.bypass, now.bypass)) {
        RemovedNotWanted(base, s, was, now, k);
      } else {
        HostNotWanted(base, s, was, now);
      }
      assert k in DirectKeys(before);
    }
    forall k | k in Keys(g, Minus(now.bypass, was.bypass)) ensures k !in SplitKeys(after) {
      assert k in Keys(g, now.bypass);
    }
  }

  // ---- Reloads that are not safe ----

  lemma KeyIn(g: Gateways, entries: seq<Entry>, e: Entry)
    requires e in entries && GatewayFor(g, e.addr.fam).Some?
    ensures NewCidr(e) in Keys(g, entries)
  {
  }

  lemma KeyNotIn(g: Gateways, entries: seq<Entry>, k: Cidr)
    requires forall e | e in entries :: NewCidr(e) != k
    ensures k !in Keys(g, entries)
  {
  }

  lemma LongNotHalf(s: Setup, k: Cidr)
    requires k.prefix >= 2
    ensures k !in SplitKeys(s)
  {
  }

  /** Two entries for one network that differ in host bits: removing one of them erases
      the kernel route that the other still wants. */
  lemma AliasLost(base: Table, s: Setup, was: Config, now: Config, e: Entry, f: Entry)
    requires e in was.bypass && e !in now.bypass && f in was.bypass && f in now.bypass
    requires NewCidr(e) == NewCidr(f) && e.prefix >= 2 && GatewayFor(s.gws, e.addr.fam).Some?
    requires forall g | g in now.bypass && g !in was.bypass :: NewCidr(g) != NewCidr(e)
    ensures !Safe(base, s, was, now)
  {
    var k, p := NewCidr(e), Compute(was, now);
    KeyIn(s.gws, p.remove, e);
    KeyIn(s.gws, now.bypass, f);
    KeyNotIn(s.gws, p.add, k);
    LongNotHalf(SetupOf(s, now), k);
    assert k in Gone(s, was, now);
  }

  /** Such entries exist: the IPv6 addresses 1 and 2 with prefix length 8. */
  lemma AliasExists()
    ensures var w := Width(V6); 1 < Pow2(w) && 2 < Pow2(w)
    ensures NewCidr(Entry(Ip(V6, 1), 8)) == NewCidr(Entry(Ip(V6, 2), 8))
  {
    var w := Width(V6);
    Pow2Monotone(2, w);
    Pow2Monotone(2, w - 8);
    DropAll(1, w - 8);
    DropAll(2, w - 8);
    MaskedEqual(1, 2, w, 8);
  }

  /** A bypass entry that is one of the halves, added by a reload, takes the half away
      from the tun. */
  lemma HalfTaken(base: Table, s: Setup, was: Config, now: Config, e: Entry)
    requires e in now.bypass && e !in was.bypass && NewCidr(e) in SplitKeys(SetupOf(s, now))
    requires GatewayFor(s.gws, e.addr.fam).Some?
    ensures !Safe(base, s, was, now)
  {
    KeyIn(s.gws, Compute(was, now).add, e);
  }

  /** The IPv6 network 0::/8, under two of its addresses. */
  function AliasOf(bits: nat): Entry
    requires bits <= 2
  {
    Pow2Monotone(2, Width(V6));
    Entry(Ip(V6, bits), 8)
  }

  /** A reload that drops one of two names of an IPv6 network, and nothing else, leaves
      another table than a fresh apply would. */
  lemma AliasReloadDiffers(base: Table, s: Setup, was: Config)
    requires s == SetupOf(s, was) && HasGateway(s) && s.gws.v6.Some? && was.bypass == [AliasOf(1), AliasOf(2)]
    ensures var now := was.(bypass := [AliasOf(2)]);
            Run(Fresh(base, s), ReloadOps(s.gws, Compute(was, now))) != Fresh(base, SetupOf(s, now))
  {
    var now := was.(bypass := [AliasOf(2)]);
    AliasExists();
    assert AliasOf(1) in was.bypass && AliasOf(2) in was.bypass;
    AliasLost(base, s, was, now, AliasOf(1), AliasOf(2));
    ReloadRefinesApply(base, s, was, now);
  }

  /** So does a reload that adds 0.0.0.0/1 to an empty list. */
  lemma HalfReloadDiffers(base: Table, s: Setup, was: Config)
    requires s == SetupOf(s, was) && HasGateway(s) && s.gws.v4.Some? && was.bypass == []
    ensures var now := was.(bypass := [Entry(Ip(V4, 0), 1)]);
            Run(Fresh(base, s), ReloadOps(s.gws, Compute(was, now))) != Fresh(base, SetupOf(s, now))
  {
    var e := Entry(Ip(V4, 0), 1);
    var now := was.(bypass := [e]);
    ZeroMasked();
    HalfTaken(base, s, was, now, e);
    ReloadRefinesApply(base, s, was, now);
  }

  lemma ZeroMasked()
    ensures NewCidr(Entry(Ip(V4, 0), 1)) == Halves(V4)[0]
  {
    AndZero(PrefixMask(32, 1), 32);
  }

  lemma {:induction false} AndZero(m: nat, w: nat)
    ensures And(0, m, w) == 0
    decreases w
  {
    if w > 0 { AndZero(m / 2, w - 1); }
  }

  // ---- Whole sequences of reloads ----

  /** The table after reloading through the configurations one by one. */
  function Reapplied(t: Table, g: Gateways, configs: seq<Config>): Table
    requires configs != []
    decreases |configs|
  {
    if |configs| == 1 then t
    else Reapplied(Run(t, ReloadOps(g, Compute(configs[0], configs[1]))), g, configs[1..])
  }

  ghost predicate AllSafe(base: Table, s: Setup, configs: seq<Config>)
    requires configs != []
    decreases |configs|
  {
    |configs| == 1 ||
    (&& HasGateway(SetupOf(s, configs[1])) && Safe(base, s, configs[0], configs[1])
     && AllSafe(base, SetupOf(s, configs[1]), configs[1..]))
  }

  /** One reload of the sequence. */
  lemma ReapplyStep(base: Table, s: Setup, configs: seq<Config>)
    requires |configs| > 1 && s == SetupOf(s, configs[0]) && HasGateway(s) && AllSafe(base, s, configs)
    ensures var n := SetupOf(s, configs[1]);
            && Reapplied(Fresh(base, s), s.gws, configs) == Reapplied(Fresh(base, n), n.gws, configs[1..])
            && HasGateway(n) && AllSafe(base, n, configs[1..])
  {
    ReloadRefinesApply(base, s, configs[0], configs[1]);
  }

  lemma FrontAndBack<T>(s: seq<T>)
    requires |s| > 1
    ensures s[1..][0] == s[1] && s[1..][|s[1..]| - 1] == s[|s| - 1]
  {
  }

  lemma SetupTwice(s: Setup, b: Config, c: Config)
    ensures SetupOf(SetupOf(s, b), c) == SetupOf(s, c)
  {
  }

  lemma {:induction false} ReapplyIsFresh(base: Table, s: Setup, configs: seq<Config>)
    requires configs != [] && s == SetupOf(s, configs[0]) && HasGateway(s) && AllSafe(base, s, configs)
    ensures Reapplied(Fresh(base, s), s.gws, configs) == Fresh(base, SetupOf(s, configs[|configs| - 1]))
    decreases |configs|
  {
    if |configs| > 1 {
      var n, rest := SetupOf(s, configs[1]), configs[1..];
      FrontAndBack(configs);
      ReapplyStep(base, s, configs);
      SetupTwice(s, configs[1], configs[1]);
      SetupTwice(s, configs[1], configs[|configs| - 1]);
      ReapplyIsFresh(base, n, rest);
    }
  }

  /** After any sequence of safe reloads the table is what a fresh apply of the latest
      configuration would have made, and teardown gives back the original table exactly
      when that could be undone. */
  lemma ReloadsRefineApply(base: Table, s: Setup, configs: seq<Config>)
    requires configs != [] && s == SetupOf(s, configs[0]) && HasGateway(s) && AllSafe(base, s, configs)
    ensures var last := SetupOf(s, configs[|configs| - 1]);
            && Reapplied(Fresh(base, s), s.gws, configs) == Fresh(base, last)
            && (Run(Reapplied(Fresh(base, s), s.gws, configs), TeardownOps(last)) == base <==> Undoable(base, last))
  {
    ReapplyIsFresh(base, s, configs);
    TeardownUndoesApply(base, SetupOf(s, configs[|configs| - 1]));
  }
}
