/** The kernel routing table, longest-prefix match, and scripts of route changes. */
module KernelRoutes {
  import opened Bytes
  import opened Bits
  import opened Classifier

  /** A next hop: through a gateway on an interface, or straight out of one. */
  datatype Hop = Hop(gw: Option<IpAddr>, oif: nat)

  /** Destination network, host bits cleared, to next hop. */
  type Table = map<Cidr, Hop>

  // ---- Longest-prefix match ----

  function KeyOf(a: IpAddr, prefix: nat): Cidr { Cidr(Masked(a, prefix), prefix) }

  function LookupFrom(t: Table, a: IpAddr, prefix: nat): Option<Hop> {
    if KeyOf(a, prefix) in t then Some(t[KeyOf(a, prefix)])
    else if prefix == 0 then None
    else LookupFrom(t, a, prefix - 1)
  }

  function Lookup(t: Table, a: IpAddr): Option<Hop> { LookupFrom(t, a, Width(a.fam)) }

  /** The key is a longest match: it contains the address and no longer key does. */
  ghost predicate LongestMatch(t: Table, a: IpAddr, k: Cidr) {
    && k in t && k.prefix <= Width(a.fam) && Contains(k, a)
    && forall m | m in t && m.prefix <= Width(a.fam) && Contains(m, a) :: m.prefix <= k.prefix
  }

  lemma {:induction false} LookupFromMeaning(t: Table, a: IpAddr, prefix: nat)
    requires prefix <= Width(a.fam)
    requires forall m | m in t && m.prefix <= Width(a.fam) && Contains(m, a) :: m.prefix <= prefix
    ensures LookupFrom(t, a, prefix).Some? <==> exists k :: LongestMatch(t, a, k)
    ensures forall k | LongestMatch(t, a, k) :: LookupFrom(t, a, prefix) == Some(t[k])
  {
    if KeyOf(a, prefix) in t {
      assert LongestMatch(t, a, KeyOf(a, prefix));
    } else {
      forall m | m in t && m.prefix <= Width(a.fam) && Contains(m, a) ensures m.prefix < prefix {
        assert m == KeyOf(a, m.prefix);
      }
      if prefix > 0 { LookupFromMeaning(t, a, prefix - 1); }
    }
  }

  /** Lookup returns the hop of the longest match, and nothing when nothing matches. */
  lemma LookupMeaning(t: Table, a: IpAddr)
    ensures Lookup(t, a).Some? <==> exists k :: LongestMatch(t, a, k)
    ensures forall k | LongestMatch(t, a, k) :: Lookup(t, a) == Some(t[k])
  {
    LookupFromMeaning(t, a, Width(a.fam));
  }

  // ---- Scripts ----

  /** `Replace` inserts or overwrites; `Delete` removes the entry if the interface and,
      when given, the gateway match. */
  datatype Op = Replace(key: Cidr, hop: Hop) | Delete(key: Cidr, gw: Option<IpAddr>, oif: nat)

  predicate Matches(h: Hop, gw: Option<IpAddr>, oif: nat) { h.oif == oif && (gw.Some? ==> h.gw == gw) }

  function Do(t: Table, op: Op): Table {
    match op
    case Replace(key, hop) => t[key := hop]
    case Delete(key, gw, oif) => if key in t && Matches(t[key], gw, oif) then t - {key} else t
  }

  function Run(t: Table, ops: seq<Op>): Table
    decreases |ops|
  {
    if ops == [] then t else Run(Do(t, ops[0]), ops[1..])
  }

  /** What is left of a script when the kernel accepts only `accepts` more insertions:
      the table, whether the script got through, and the insertions still accepted. */
  datatype Progress = Progress(table: Table, ok: bool, accepts: nat)

  function Exec(t: Table, ops: seq<Op>, accepts: nat): Progress
    decreases |ops|
  {
    if ops == [] then Progress(t, true, accepts)
    else if ops[0].Delete? then Exec(Do(t, ops[0]), ops[1..], accepts)
    else if accepts == 0 then Progress(t, false, 0)
    else Exec(Do(t, ops[0]), ops[1..], accepts - 1)
  }

  lemma {:induction false} RunConcat(t: Table, xs: seq<Op>, ys: seq<Op>)
    ensures Run(t, xs + ys) == Run(Run(t, xs), ys)
    decreases |xs|
  {
    if xs == [] {
      assert xs + ys == ys;
    } else {
      assert (xs + ys)[1..] == xs[1..] + ys;
      RunConcat(Do(t, xs[0]), xs[1..], ys);
    }
  }

  lemma {:induction false} ExecConcat(t: Table, xs: seq<Op>, ys: seq<Op>, accepts: nat)
    ensures Exec(t, xs + ys, accepts) ==
            var p := Exec(t, xs, accepts); if p.ok then Exec(p.table, ys, p.accepts) else p
    decreases |xs|
  {
    if xs == [] {
      assert xs + ys == ys;
    } else {
      assert (xs + ys)[1..] == xs[1..] + ys;
      if xs[0].Delete? { ExecConcat(Do(t, xs[0]), xs[1..], ys, accepts); }
      else if accepts > 0 { ExecConcat(Do(t, xs[0]), xs[1..], ys, accepts - 1); }
    }
  }

  /** A script that fails has run up to some point; one that succeeds has run in full. */
  lemma {:induction false} ExecIsPrefix(t: Table, ops: seq<Op>, accepts: nat) returns (n: nat)
    ensures n <= |ops|
    ensures Exec(t, ops, accepts).table == Run(t, ops[..n])
    ensures Exec(t, ops, accepts).ok <==> n == |ops|
    decreases |ops|
  {
    if ops == [] {
      n := 0;
    } else if ops[0].Replace? && accepts == 0 {
      n := 0;
    } else {
      n := ExecIsPrefix(Do(t, ops[0]), ops[1..], if ops[0].Delete? then accepts else accepts - 1);
      n := n + 1;
      assert ops[..n][1..] == ops[1..][..n - 1];
    }
  }

  // ---- A cut script repeated ----

  /** All that the script does to one key it does with one next hop. */
  ghost predicate Steady(ops: seq<Op>, hop: Cidr -> Hop) {
    forall i | 0 <= i < |ops| ::
      match ops[i]
      case Replace(k, h) => h == hop(k)
      case Delete(k, gw, oif) => gw.Some? && hop(k) == Hop(gw, oif)
  }

  /** What the script does to one key: nothing, erase the script's own hop, leave it
      absent, or leave the script's hop. */
  datatype Effect = Keep | Erase | Absent | Present

  function EffectOn(ops: seq<Op>, key: Cidr): Effect {
    if ops == [] then Keep
    else
      var last := ops[|ops| - 1];
      var before := EffectOn(ops[..|ops| - 1], key);
      if last.key != key then before
      else if last.Replace? then Present
      else if before == Keep || before == Erase then Erase
      else Absent
  }

  predicate Achieves(e: Effect, h: Hop, before: Option<Hop>, after: Option<Hop>) {
    match e
    case Keep => after == before
    case Erase => after == if before == Some(h) then None else before
    case Absent => after == None
    case Present => after == Some(h)
  }

  function At(t: Table, k: Cidr): Option<Hop> { if k in t then Some(t[k]) else None }

  lemma {:induction false} RunEffect(t: Table, ops: seq<Op>, hop: Cidr -> Hop, k: Cidr)
    requires Steady(ops, hop)
    ensures Achieves(EffectOn(ops, k), hop(k), At(t, k), At(Run(t, ops), k))
    decreases |ops|
  {
    if ops != [] {
      var init, last := ops[..|ops| - 1], ops[|ops| - 1];
      RunEffect(t, init, hop, k);
      assert ops == init + [last];
      RunConcat(t, init, [last]);
      assert Run(Run(t, init), [last]) == Do(Run(t, init), last);
    }
  }

  /** The prefix's effect is absorbed by the whole script's. */
  predicate Absorbs(whole: Effect, part: Effect) {
    part == Keep || whole == Absent || whole == Present || (whole == Erase && part == Erase)
  }

  lemma {:induction false} PrefixAbsorbed(ops: seq<Op>, n: nat, k: Cidr)
    requires n <= |ops|
    ensures Absorbs(EffectOn(ops, k), EffectOn(ops[..n], k))
    decreases |ops|
  {
    if n == |ops| {
      assert ops[..n] == ops;
    } else {
      PrefixAbsorbed(ops[..|ops| - 1], n, k);
      assert ops[..|ops| - 1][..n] == ops[..n];
    }
  }

  /** Running a script after any cut-off part of it gives what running it once gives. */
  lemma RetryConverges(t: Table, ops: seq<Op>, hop: Cidr -> Hop, n: nat)
    requires Steady(ops, hop) && n <= |ops|
    ensures Run(Run(t, ops[..n]), ops) == Run(t, ops)
  {
    var cut := Run(t, ops[..n]);
    forall k ensures At(Run(cut, ops), k) == At(Run(t, ops), k) {
      RunEffect(t, ops[..n], hop, k);
      RunEffect(cut, ops, hop, k);
      RunEffect(t, ops, hop, k);
      PrefixAbsorbed(ops, n, k);
    }
    SameEverywhere(Run(cut, ops), Run(t, ops));
  }

  lemma SameEverywhere(t: Table, u: Table)
    requires forall k :: At(t, k) == At(u, k)
    ensures t == u
  {
    forall k ensures k in t <==> k in u { assert At(t, k) == At(u, k); }
    forall k | k in t ensures t[k] == u[k] { assert At(t, k) == At(u, k); }
  }
}
