/** What the route scripts do to the table, key by key. */
module RouteTables {
  import opened Bytes
  import opened Bits
  import opened Classifier
  import opened KernelRoutes
  import opened Reloads
  import opened Routing

  /** The keys of the entries whose family has a gateway. */
  ghost function Keys(g: Gateways, entries: seq<Entry>): set<Cidr> {
    set e | e in entries && GatewayFor(g, e.addr.fam).Some? :: NewCidr(e)
  }

  function HopFor(g: Gateways, k: Cidr): Hop {
    match GatewayFor(g, k.base.fam)
    case Some(gw) => Via(gw)
    case None => Hop(None, 0)
  }

  lemma KeysFront(g: Gateways, entries: seq<Entry>)
    requires entries != []
    ensures Keys(g, entries) ==
            (if GatewayFor(g, entries[0].addr.fam).Some? then {NewCidr(entries[0])} else {}) + Keys(g, entries[1..])
  {
    assert forall e :: e in entries <==> e == entries[0] || e in entries[1..];
  }

  lemma {:induction false} AddsAt(t: Table, g: Gateways, entries: seq<Entry>, k: Cidr)
    ensures At(Run(t, BypassAdds(g, entries)), k) ==
            if k in Keys(g, entries) then Some(HopFor(g, k)) else At(t, k)
    decreases |entries|
  {
    if entries != [] {
      var ops, rest := BypassAdds(g, entries), BypassAdds(g, entries[1..]);
      KeysFront(g, entries);
      if GatewayFor(g, entries[0].addr.fam).Some? {
        assert ops[1..] == rest;
        AddsAt(Do(t, ops[0]), g, entries[1..], k);
      } else {
        assert ops == rest;
        AddsAt(t, g, entries[1..], k);
      }
    }
  }

  lemma {:induction false} DelsAt(t: Table, g: Gateways, entries: seq<Entry>, k: Cidr)
    ensures At(Run(t, BypassDels(g, entries)), k) ==
            if k in Keys(g, entries) && At(t, k) == Some(HopFor(g, k)) then None else At(t, k)
    decreases |entries|
  {
    if entries != [] {
      var ops, rest := BypassDels(g, entries), BypassDels(g, entries[1..]);
      KeysFront(g, entries);
      if GatewayFor(g, entries[0].addr.fam).Some? {
        assert ops[1..] == rest;
        DelsAt(Do(t, ops[0]), g, entries[1..], k);
      } else {
        assert ops == rest;
        DelsAt(t, g, entries[1..], k);
      }
    }
  }

  // ---- What apply installs ----

  function Host(ip: IpAddr): seq<Entry> { [Entry(ip, Width(ip.fam))] }

  /** The keys that go through a gateway. */
  ghost function DirectKeys(s: Setup): set<Cidr> { Keys(s.gws, Host(s.proxy)) + Keys(s.gws, s.bypass) }

  ghost function HalfKeys(f: Family): set<Cidr> { {Halves(f)[0], Halves(f)[1]} }

  /** The keys that go into the tun. */
  ghost function SplitKeys(s: Setup): set<Cidr> { HalfKeys(V4) + if SplitsV6(s) then HalfKeys(V6) else {} }

  ghost function InstalledAt(base: Table, s: Setup, k: Cidr): Option<Hop> {
    if k in SplitKeys(s) then Some(Hop(None, s.tun))
    else if k in DirectKeys(s) then Some(HopFor(s.gws, k))
    else At(base, k)
  }

  /** The table a fresh `apply` leaves. */
  function Fresh(base: Table, s: Setup): Table { Run(base, ApplyOps(s)) }

  lemma SplitAddsAt(t: Table, f: Family, tun: nat, k: Cidr)
    ensures At(Run(t, SplitAdds(f, tun)), k) == if k in HalfKeys(f) then Some(Hop(None, tun)) else At(t, k)
  {
    RunTwo(t, SplitAdds(f, tun)[0], SplitAdds(f, tun)[1]);
  }

  lemma SplitDelsAt(t: Table, f: Family, tun: nat, k: Cidr)
    ensures At(Run(t, SplitDels(f, tun)), k) ==
            if k in HalfKeys(f) && k in t && Matches(t[k], None, tun) then None else At(t, k)
  {
    RunTwo(t, SplitDels(f, tun)[0], SplitDels(f, tun)[1]);
  }

  /** A fresh apply, key by key: the halves into the tun, the proxy and the bypass
      networks through their gateways, everything else as before. */
  lemma FreshAt(base: Table, s: Setup, k: Cidr)
    ensures At(Fresh(base, s), k) == InstalledAt(base, s, k)
  {
    var host, direct, v4 := HostAdd(s.gws, s.proxy), BypassAdds(s.gws, s.bypass), SplitAdds(V4, s.tun);
    var v6 := if SplitsV6(s) then SplitAdds(V6, s.tun) else [];
    RunFour(base, host, direct, v4, v6);
    var t1 := Run(base, host);
    var t2 := Run(t1, direct);
    var t3 := Run(t2, v4);
    AddsAt(base, s.gws, Host(s.proxy), k);
    AddsAt(t1, s.gws, s.bypass, k);
    SplitAddsAt(t2, V4, s.tun, k);
    if SplitsV6(s) { SplitAddsAt(t3, V6, s.tun, k); }
  }

  // ---- Teardown ----

  /** No installed key was in the table before, and no route like a missing IPv6 half was. */
  ghost predicate Undoable(base: Table, s: Setup) {
    && (DirectKeys(s) + SplitKeys(s)) !! base.Keys
    && (s.captureV6 && !SplitsV6(s) ==>
          forall k | k in HalfKeys(V6) && k in base :: !Matches(base[k], None, s.tun))
  }

  ghost predicate UndoneAt(base: Table, s: Setup, k: Cidr) {
    At(Run(Fresh(base, s), TeardownOps(s)), k) == At(base, k)
  }

  ghost predicate UndoableAt(base: Table, s: Setup, k: Cidr) {
    && (k in DirectKeys(s) + SplitKeys(s) ==> k !in base)
    && (s.captureV6 && !SplitsV6(s) && k in HalfKeys(V6) && k in base ==> !Matches(base[k], None, s.tun))
  }

  lemma DirectHopNotTun(s: Setup, k: Cidr)
    requires k in DirectKeys(s)
    ensures HopFor(s.gws, k).gw.Some?
  {
    var e :| (e in Host(s.proxy) || e in s.bypass) && GatewayFor(s.gws, e.addr.fam).Some? && NewCidr(e) == k;
  }

  lemma TeardownAt(base: Table, s: Setup, k: Cidr)
    ensures UndoneAt(base, s, k) <==> UndoableAt(base, s, k)
  {
    var host, direct, v4 := HostDel(s.gws, s.proxy), BypassDels(s.gws, s.bypass), SplitDels(V4, s.tun);
    var v6 := if s.captureV6 then SplitDels(V6, s.tun) else [];
    var t0 := Fresh(base, s);
    RunFour(t0, host, direct, v4, v6);
    var t1 := Run(t0, host);
    var t2 := Run(t1, direct);
    var t3 := Run(t2, v4);
    FreshAt(base, s, k);
    DelsAt(t0, s.gws, Host(s.proxy), k);
    DelsAt(t1, s.gws, s.bypass, k);
    SplitDelsAt(t2, V4, s.tun, k);
    if s.captureV6 { SplitDelsAt(t3, V6, s.tun, k); }
    if k in DirectKeys(s) { DirectHopNotTun(s, k); }
  }

  lemma UndoableEverywhere(base: Table, s: Setup)
    requires forall k :: UndoableAt(base, s, k)
    ensures Undoable(base, s)
  {
    forall k | k in DirectKeys(s) + SplitKeys(s) ensures k !in base.Keys { assert UndoableAt(base, s, k); }
    forall k | s.captureV6 && !SplitsV6(s) && k in HalfKeys(V6) && k in base ensures !Matches(base[k], None, s.tun) {
      assert UndoableAt(base, s, k);
    }
  }

  /** Teardown after an apply gives back the table from before, exactly when nothing
      installed was there before. */
  lemma TeardownUndoesApply(base: Table, s: Setup)
    ensures Run(Fresh(base, s), TeardownOps(s)) == base <==> Undoable(base, s)
  {
    var t := Run(Fresh(base, s), TeardownOps(s));
    forall k ensures At(t, k) == At(base, k) <==> UndoableAt(base, s, k) { TeardownAt(base, s, k); }
    if Undoable(base, s) {
      SameEverywhere(t, base);
    }
    if t == base {
      UndoableEverywhere(base, s);
    }
  }

  /** A host route for the proxy that was there before is lost. */
  lemma EarlierRouteLost(base: Table, s: Setup)
    requires GatewayFor(s.gws, s.proxy.fam).Some? && HostKey(s.proxy) in base
    ensures !Undoable(base, s) && Run(Fresh(base, s), TeardownOps(s)) != base
  {
    KeysFront(s.gws, Host(s.proxy));
    assert HostKey(s.proxy) in DirectKeys(s);
    TeardownUndoesApply(base, s);
  }
}
