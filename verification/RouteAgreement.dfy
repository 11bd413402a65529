/** The kernel's longest-prefix match and the userspace classifier. */
module RouteAgreement {
  import opened Bytes
  import opened Bits
  import opened Classifier
  import opened KernelRoutes
  import opened Reloads
  import opened Routing
  import opened RouteTables
  import opened RouteReload

  /** The family's traffic is captured and its bypass routes have a gateway. */
  predicate Captured(s: Setup, f: Family) { (f.V4? || SplitsV6(s)) && GatewayFor(s.gws, f).Some? }

  /** No route of the original table but the default contains the address. */
  ghost predicate OnlyDefault(base: Table, a: IpAddr) {
    forall k | k in base && k.prefix > 0 :: !Contains(k, a)
  }

  /** Some bypass network of at least two bits contains the address. */
  ghost predicate LongCovered(entries: seq<Entry>, a: IpAddr) {
    exists i :: 0 <= i < |entries| && entries[i].prefix >= 2 && Covers(entries[i], a)
  }

  lemma {:induction false} SomeMatch(t: Table, a: IpAddr, k: Cidr, prefix: nat)
    requires k in t && Contains(k, a) && k.prefix <= prefix
    ensures LookupFrom(t, a, prefix).Some?
  {
    if KeyOf(a, prefix) !in t {
      assert k == KeyOf(a, k.prefix);
      SomeMatch(t, a, k, prefix - 1);
    }
  }

  /** The longest match exists as soon as something matches, is at least as long, and
      gives the looked-up hop. */
  lemma LookupAtLeast(t: Table, a: IpAddr, k: Cidr) returns (m: Cidr)
    requires k in t && Contains(k, a) && k.prefix <= Width(a.fam)
    ensures m in t && Contains(m, a) && k.prefix <= m.prefix <= Width(a.fam) && Lookup(t, a) == Some(t[m])
  {
    SomeMatch(t, a, k, Width(a.fam));
    LookupMeaning(t, a);
    m :| LongestMatch(t, a, m);
  }

  /** The half that contains an address. */
  lemma HalfOf(a: IpAddr)
    ensures KeyOf(a, 1) in HalfKeys(a.fam) && Contains(KeyOf(a, 1), a)
  {
    TopBit(a.bits, Width(a.fam));
    HalfFits(a.fam);
  }

  lemma HostContains(ip: IpAddr, a: IpAddr)
    ensures Contains(HostKey(ip), a) <==> a == ip
  {
    FullMask(ip);
    FullMask(a);
  }

  /** Of the keys that contain an address, those longer than a half are the proxy's host
      route and the bypass networks. */
  lemma LongKey(base: Table, s: Setup, a: IpAddr, k: Cidr)
    requires OnlyDefault(base, a) && k in Fresh(base, s) && Contains(k, a) && k.prefix >= 2
    ensures GatewayFor(s.gws, a.fam).Some? && Fresh(base, s)[k] == Via(GatewayFor(s.gws, a.fam).value)
    ensures a == s.proxy || LongCovered(s.bypass, a)
  {
    FreshAt(base, s, k);
    assert k !in SplitKeys(s) && k !in base;
    if k in Keys(s.gws, Host(s.proxy)) {
      HostKeys(s.gws, s.proxy);
      HostContains(s.proxy, a);
    } else {
      var e :| e in s.bypass && GatewayFor(s.gws, e.addr.fam).Some? && NewCidr(e) == k;
      ContainsMeaning(e, a);
      var i :| 0 <= i < |s.bypass| && s.bypass[i] == e;
    }
  }

  lemma DirectKeyExists(base: Table, s: Setup, a: IpAddr) returns (k: Cidr)
    requires Captured(s, a.fam) && ValidPrefixes(s.bypass) && (a == s.proxy || LongCovered(s.bypass, a))
    ensures k in Fresh(base, s) && Contains(k, a) && 2 <= k.prefix <= Width(a.fam)
  {
    if a == s.proxy {
      k := HostKey(a);
      HostKeys(s.gws, a);
      HostContains(a, a);
    } else {
      var i :| 0 <= i < |s.bypass| && s.bypass[i].prefix >= 2 && Covers(s.bypass[i], a);
      var e := s.bypass[i];
      k := NewCidr(e);
      ContainsMeaning(e, a);
      assert e in s.bypass && k in Keys(s.gws, s.bypass);
    }
    FreshAt(base, s, k);
  }

  /** Where the kernel sends an address after an apply: through the gateway if it is the
      proxy or lies in a bypass network of at least two bits, into the tun otherwise. */
  lemma KernelDecision(base: Table, s: Setup, a: IpAddr)
    requires Captured(s, a.fam) && OnlyDefault(base, a) && ValidPrefixes(s.bypass)
    ensures Lookup(Fresh(base, s), a) ==
            Some(if a == s.proxy || LongCovered(s.bypass, a) then Via(GatewayFor(s.gws, a.fam).value)
                 else Hop(None, s.tun))
  {
    var t := Fresh(base, s);
    HalfOf(a);
    FreshAt(base, s, KeyOf(a, 1));
    if a == s.proxy || LongCovered(s.bypass, a) {
      var k := DirectKeyExists(base, s, a);
      var m := LookupAtLeast(t, a, k);
      LongKey(base, s, a, m);
    } else {
      var m := LookupAtLeast(t, a, KeyOf(a, 1));
      if m.prefix >= 2 { LongKey(base, s, a, m); }
      assert m == KeyOf(a, m.prefix);
    }
  }

  /** The kernel bypasses the tun. */
  ghost predicate Bypasses(base: Table, s: Setup, a: IpAddr) {
    Lookup(Fresh(base, s), a) != Some(Hop(None, s.tun))
  }

  lemma LongIsCovered(entries: seq<Entry>, a: IpAddr)
    ensures LongCovered(entries, a) ==> Covered(entries, a)
    ensures (forall e | e in entries :: e.prefix >= 2) ==> (LongCovered(entries, a) <==> Covered(entries, a))
  {
    if LongCovered(entries, a) {
      var i :| 0 <= i < |entries| && entries[i].prefix >= 2 && Covers(entries[i], a);
    }
    if Covered(entries, a) {
      var i :| 0 <= i < |entries| && Covers(entries[i], a);
      assert entries[i] in entries;
    }
  }

  /** Kernel and classifier agree on an address, that is, the tun is bypassed exactly for
      the proxy and for what is classified Direct, if and only if the address is not
      covered by a bypass network shorter than two bits alone; so they always agree when
      all bypass networks have at least two bits. */
  lemma KernelAgreesWithClassifier(base: Table, s: Setup, a: IpAddr)
    requires Captured(s, a.fam) && OnlyDefault(base, a) && ValidPrefixes(s.bypass)
    ensures (Bypasses(base, s, a) <==> a == s.proxy || Decide(TableOf(s.bypass), a).Direct?)
       <==> (a == s.proxy || LongCovered(s.bypass, a) || !Covered(s.bypass, a))
    ensures (forall e | e in s.bypass :: e.prefix >= 2) ==>
            (Bypasses(base, s, a) <==> a == s.proxy || Decide(TableOf(s.bypass), a).Direct?)
  {
    KernelDecision(base, s, a);
    DecideMeaning(s.bypass, a);
    LongIsCovered(s.bypass, a);
  }

  /** A bypass list holding only 0.0.0.0/0 is classified Direct throughout, and the kernel
      still sends everything but the proxy into the tun. */
  lemma DefaultBypassDisagrees(base: Table, s: Setup, a: IpAddr)
    requires a.fam.V4? && a != s.proxy && s.bypass == [Entry(Ip(V4, 0), 0)]
    requires Captured(s, V4) && OnlyDefault(base, a)
    ensures Decide(TableOf(s.bypass), a).Direct? && !Bypasses(base, s, a)
  {
    KernelDecision(base, s, a);
    DecideMeaning(s.bypass, a);
    assert Covers(s.bypass[0], a);
  }

  // ---- Where traffic goes, compared with the original table ----

  /** The gateways that the default routes of the table name. */
  function GatewaysOf(t: Table): Gateways { Gateways(ReadGateway(t, V4), ReadGateway(t, V6)) }

  /** Where an address that the original table sends along its default route, if anywhere,
      is to go: the proxy and the bypass networks of at least two bits where they went
      before, if that is through a gateway; everything else into the tun if its family is
      captured, and where it went before if not. IPv6 is captured if that is asked for and
      there is an IPv6 gateway or the proxy is reached over IPv6. */
  ghost function Destination(base: Table, proxy: IpAddr, bypass: seq<Entry>, captureV6: bool, tun: nat, a: IpAddr)
    : Option<Hop>
  {
    var original := Lookup(base, a);
    var gateway := original.Some? && original.value.gw.Some?;
    if gateway && (a == proxy || LongCovered(bypass, a)) then original
    else if a.fam.V4? || (captureV6 && (gateway || proxy.fam.V6?)) then Some(Hop(None, tun))
    else original
  }

  lemma DefaultOf(a: IpAddr)
    ensures KeyOf(a, 0) == DefaultKey(a.fam) && Contains(DefaultKey(a.fam), a)
  {
    var w := Width(a.fam);
    MaskValue(w, 0);
    AndMask(a.bits, w, w);
    DropAll(a.bits, w);
  }

  /** Without a longer match, lookup gives the default route. */
  lemma LookupDefault(base: Table, a: IpAddr)
    requires OnlyDefault(base, a)
    ensures Lookup(base, a) == At(base, DefaultKey(a.fam))
  {
    DefaultOf(a);
    LookupMeaning(base, a);
    if Lookup(base, a).Some? {
      var k :| LongestMatch(base, a, k);
      assert k == KeyOf(a, 0);
    } else if DefaultKey(a.fam) in base {
      var m := LookupAtLeast(base, a, DefaultKey(a.fam));
    }
  }

  /** The gateway read from the table is the hop of its default route. */
  lemma GatewayIsOriginal(base: Table, a: IpAddr)
    requires OnlyDefault(base, a)
    ensures var original := Lookup(base, a);
            var gateway := GatewayFor(GatewaysOf(base), a.fam);
            && (gateway.Some? <==> original.Some? && original.value.gw.Some?)
            && (gateway.Some? ==> Some(Via(gateway.value)) == original)
  {
    LookupDefault(base, a);
  }

  /** No gateway for the family, whose halves go into the tun: everything goes there. */
  lemma TunnelledWithoutGateway(base: Table, s: Setup, a: IpAddr)
    requires OnlyDefault(base, a) && (a.fam.V4? || SplitsV6(s)) && GatewayFor(s.gws, a.fam).None?
    ensures Lookup(Fresh(base, s), a) == Some(Hop(None, s.tun))
  {
    HalfOf(a);
    FreshAt(base, s, KeyOf(a, 1));
    var m := LookupAtLeast(Fresh(base, s), a, KeyOf(a, 1));
    if m.prefix >= 2 { LongKey(base, s, a, m); }
    assert m == KeyOf(a, m.prefix);
  }

  lemma UncapturedKey(base: Table, s: Setup, a: IpAddr, k: Cidr)
    requires a.fam.V6? && !SplitsV6(s) && OnlyDefault(base, a) && s.gws == GatewaysOf(base)
    requires k in Fresh(base, s) && Contains(k, a)
    ensures Some(Fresh(base, s)[k]) == Lookup(base, a)
  {
    FreshAt(base, s, k);
    GatewayIsOriginal(base, a);
    LookupDefault(base, a);
    DefaultOf(a);
    assert k.base.fam == a.fam && k !in SplitKeys(s);
    if k !in DirectKeys(s) { assert k == KeyOf(a, k.prefix); }
  }

  /** A family that is not captured goes where it went before. */
  lemma UncapturedUnchanged(base: Table, s: Setup, a: IpAddr)
    requires a.fam.V6? && !SplitsV6(s) && OnlyDefault(base, a) && s.gws == GatewaysOf(base)
    ensures Lookup(Fresh(base, s), a) == Lookup(base, a)
  {
    var t := Fresh(base, s);
    LookupMeaning(t, a);
    LookupDefault(base, a);
    DefaultOf(a);
    if Lookup(t, a).Some? {
      var k :| LongestMatch(t, a, k);
      UncapturedKey(base, s, a, k);
    } else if DefaultKey(a.fam) in base {
      FreshAt(base, s, DefaultKey(a.fam));
      var m := LookupAtLeast(t, a, DefaultKey(a.fam));
    }
  }

  /** With the gateways that the original table names, a fresh apply sends every address
      that has no longer route than the default where it is to go. */
  lemma FreshDestination(base: Table, s: Setup, a: IpAddr)
    requires s.gws == GatewaysOf(base) && OnlyDefault(base, a) && ValidPrefixes(s.bypass)
    ensures Lookup(Fresh(base, s), a) == Destination(base, s.proxy, s.bypass, s.captureV6, s.tun, a)
  {
    GatewayIsOriginal(base, a);
    if a.fam.V6? && !SplitsV6(s) {
      UncapturedUnchanged(base, s, a);
    } else if GatewayFor(s.gws, a.fam).Some? {
      KernelDecision(base, s, a);
    } else {
      TunnelledWithoutGateway(base, s, a);
    }
  }

  /** After a successful apply: bypassed traffic goes where the table from before sent it. */
  lemma ApplyDestination(m: Manager, routes: nat, writes: nat, a: IpAddr)
    requires Applied(m, routes, writes).ok && OnlyDefault(m.table, a) && ValidPrefixes(m.setup.bypass)
    ensures var s := m.setup;
            Lookup(Applied(m, routes, writes).manager.table, a) ==
            Destination(m.table, s.proxy, s.bypass, s.captureV6, s.tun, a)
  {
    var s := m.setup.(gws := GatewaysOf(m.table));
    var n := ExecIsPrefix(m.table, ApplyOps(s), routes);
    assert ApplyOps(s)[..n] == ApplyOps(s);
    FreshDestination(m.table, s, a);
  }
}
