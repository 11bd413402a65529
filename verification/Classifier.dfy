/** Addresses, CIDR blocks and the userspace route classifier. */
module Classifier {
  import opened Bits

  datatype Family = V4 | V6

  function Width(f: Family): nat { if f.V4? then 32 else 128 }

  datatype Ip = Ip(fam: Family, bits: nat)

  type IpAddr = a: Ip | a.bits < Pow2(Width(a.fam)) witness Ip(V4, 0)

  /** One line of a bypass list: an address, host bits and all, and a prefix length. */
  datatype Entry = Entry(addr: IpAddr, prefix: nat)

  function MaskOf(f: Family, prefix: nat): nat { PrefixMask(Width(f), prefix) }

  /** `mask_v4` and `mask_v6`: the address with its host bits cleared. */
  function Masked(a: IpAddr, prefix: nat): (r: IpAddr)
    ensures r.fam == a.fam
  {
    MaskIdempotent(a.bits, Width(a.fam), prefix);
    Ip(a.fam, And(a.bits, MaskOf(a.fam, prefix), Width(a.fam)))
  }

  datatype Cidr = Cidr(base: IpAddr, prefix: nat)

  function NewCidr(e: Entry): Cidr { Cidr(Masked(e.addr, e.prefix), e.prefix) }

  predicate Contains(c: Cidr, a: IpAddr) {
    a.fam == c.base.fam && Masked(a, c.prefix) == c.base
  }

  // ---- What a CIDR block means ----

  /** The address agrees with the entry's on the first `prefix` bits (all of them if there are fewer). */
  ghost predicate Covers(e: Entry, a: IpAddr) {
    && a.fam == e.addr.fam
    && var w := Width(a.fam);
       forall i | w - Min(e.prefix, w) <= i < w :: Bit(a.bits, i) == Bit(e.addr.bits, i)
  }

  ghost predicate Covered(entries: seq<Entry>, a: IpAddr) {
    exists i :: 0 <= i < |entries| && Covers(entries[i], a)
  }

  /** Mask form, division form and bit form agree. */
  lemma ContainsMeaning(e: Entry, a: IpAddr)
    ensures Contains(NewCidr(e), a) <==> Covers(e, a)
    ensures Contains(NewCidr(e), a) <==>
            a.fam == e.addr.fam
            && var d := Pow2(Width(a.fam) - Min(e.prefix, Width(a.fam))); a.bits / d == e.addr.bits / d
  {
    if a.fam == e.addr.fam {
      var w := Width(a.fam);
      var s := w - Min(e.prefix, w);
      MaskedEqual(a.bits, e.addr.bits, w, e.prefix);
      DropBits(a.bits, e.addr.bits, s, w);
      DropIsDivision(a.bits, s);
      DropIsDivision(e.addr.bits, s);
    }
  }

  /** Host bits of an entry never matter. */
  lemma HostBitsIrrelevant(e: Entry, a: IpAddr)
    ensures Covers(e, a) <==> Covers(Entry(Masked(e.addr, e.prefix), e.prefix), a)
  {
    MaskIdempotent(e.addr.bits, Width(e.addr.fam), e.prefix);
    var f := Entry(Masked(e.addr, e.prefix), e.prefix);
    assert NewCidr(f) == NewCidr(e);
    ContainsMeaning(e, a);
    ContainsMeaning(f, a);
  }

  // ---- The table ----

  datatype Decision = Direct | Proxy

  datatype RouteTable = RouteTable(v4: seq<(nat, nat)>, v6: seq<(nat, nat)>, len: nat)

  function Cidrs(entries: seq<Entry>): seq<Cidr> {
    if entries == [] then [] else [NewCidr(entries[0])] + Cidrs(entries[1..])
  }

  /** A stable sort by falling prefix length. */
  function Insert(c: Cidr, s: seq<Cidr>): seq<Cidr> {
    if s == [] || s[0].prefix <= c.prefix then [c] + s else [s[0]] + Insert(c, s[1..])
  }

  function SortByPrefix(s: seq<Cidr>): seq<Cidr> {
    if s == [] then [] else Insert(s[0], SortByPrefix(s[1..]))
  }

  /** The (base, mask) rows of one family, in order. */
  function Rows(s: seq<Cidr>, f: Family): seq<(nat, nat)> {
    if s == [] then []
    else (if s[0].base.fam == f then [(s[0].base.bits, MaskOf(f, s[0].prefix))] else []) + Rows(s[1..], f)
  }

  function TableOf(entries: seq<Entry>): RouteTable {
    var sorted := SortByPrefix(Cidrs(entries));
    RouteTable(Rows(sorted, V4), Rows(sorted, V6), |entries|)
  }

  predicate AnyRow(rows: seq<(nat, nat)>, bits: nat, w: nat) {
    exists i :: 0 <= i < |rows| && And(bits, rows[i].1, w) == rows[i].0
  }

  function Decide(t: RouteTable, a: IpAddr): Decision {
    if AnyRow(if a.fam.V4? then t.v4 else t.v6, a.bits, Width(a.fam)) then Direct else Proxy
  }

  lemma {:induction false} RowsAppend(s: seq<Cidr>, c: Cidr, f: Family)
    ensures Rows(s + [c], f) == Rows(s, f) + (if c.base.fam == f then [(c.base.bits, MaskOf(f, c.prefix))] else [])
  {
    if s == [] {
      assert s + [c] == [c];
    } else {
      assert (s + [c])[1..] == s[1..] + [c];
      RowsAppend(s[1..], c, f);
    }
  }

  lemma {:induction false} CidrsAppend(entries: seq<Entry>, e: Entry)
    ensures Cidrs(entries + [e]) == Cidrs(entries) + [NewCidr(e)]
  {
    if entries == [] {
      assert entries + [e] == [e];
    } else {
      assert (entries + [e])[1..] == entries[1..] + [e];
      CidrsAppend(entries[1..], e);
    }
  }

  lemma TakeNext<T>(s: seq<T>, i: nat)
    requires i < |s|
    ensures s[..i + 1] == s[..i] + [s[i]]
  {
  }

  lemma TakeAll<T>(s: seq<T>)
    ensures s[..|s|] == s
  {
  }

  predicate FallingPrefix(s: seq<Cidr>) { forall i, j | 0 <= i < j < |s| :: s[i].prefix >= s[j].prefix }

  lemma FallingCons(x: Cidr, s: seq<Cidr>)
    requires FallingPrefix(s) && forall d | d in s :: d.prefix <= x.prefix
    ensures FallingPrefix([x] + s)
  {
  }

  lemma FallingTail(s: seq<Cidr>)
    requires s != [] && FallingPrefix(s)
    ensures FallingPrefix(s[1..]) && forall d | d in s :: d.prefix <= s[0].prefix
  {
  }

  lemma {:induction false} InsertPermutes(c: Cidr, s: seq<Cidr>)
    ensures multiset(Insert(c, s)) == multiset(s) + multiset{c}
    ensures forall d | d in Insert(c, s) :: d == c || d in s
  {
    if s != [] && s[0].prefix > c.prefix {
      InsertPermutes(c, s[1..]);
      FrontOf(s);
    }
  }

  lemma FrontOf<T>(s: seq<T>)
    requires s != []
    ensures s == [s[0]] + s[1..]
  {
  }

  lemma {:induction false} InsertSorts(c: Cidr, s: seq<Cidr>)
    requires FallingPrefix(s)
    ensures FallingPrefix(Insert(c, s))
  {
    if s != [] { FallingTail(s); }
    if s == [] || s[0].prefix <= c.prefix {
      FallingCons(c, s);
    } else {
      InsertSorts(c, s[1..]);
      InsertPermutes(c, s[1..]);
      FallingCons(s[0], Insert(c, s[1..]));
    }
  }

  /** The sort is a permutation in falling order of prefix length. */
  lemma {:induction false} SortSorts(s: seq<Cidr>)
    ensures FallingPrefix(SortByPrefix(s)) && multiset(SortByPrefix(s)) == multiset(s)
  {
    if s != [] {
      SortSorts(s[1..]);
      InsertSorts(s[0], SortByPrefix(s[1..]));
      InsertPermutes(s[0], SortByPrefix(s[1..]));
      FrontOf(s);
    }
  }

  /** `RouteTable::new` */
  method NewRouteTable(direct: seq<Entry>) returns (t: RouteTable)
    ensures t == TableOf(direct)
  {
    var cidrs: seq<Cidr> := [];
    for i := 0 to |direct|
      invariant cidrs == Cidrs(direct[..i])
    {
      CidrsAppend(direct[..i], direct[i]);
      TakeNext(direct, i);
      cidrs := cidrs + [NewCidr(direct[i])];
    }
    TakeAll(direct);
    cidrs := SortByPrefix(cidrs);
    var v4, v6 := [], [];
    for i := 0 to |cidrs|
      invariant v4 == Rows(cidrs[..i], V4) && v6 == Rows(cidrs[..i], V6)
    {
      var c := cidrs[i];
      RowsAppend(cidrs[..i], c, V4);
      RowsAppend(cidrs[..i], c, V6);
      TakeNext(cidrs, i);
      match c.base.fam
      case V4 => v4 := v4 + [(c.base.bits, MaskOf(V4, c.prefix))];
      case V6 => v6 := v6 + [(c.base.bits, MaskOf(V6, c.prefix))];
    }
    TakeAll(cidrs);
    t := RouteTable(v4, v6, |direct|);
  }

  // ---- What the table decides ----

  predicate AnyCidr(s: seq<Cidr>, a: IpAddr) { exists i :: 0 <= i < |s| && Contains(s[i], a) }

  lemma {:induction false} RowsMeaning(s: seq<Cidr>, a: IpAddr)
    ensures AnyRow(Rows(s, a.fam), a.bits, Width(a.fam)) <==> AnyCidr(s, a)
  {
    if s != [] {
      var rows, rest := Rows(s, a.fam), Rows(s[1..], a.fam);
      RowsMeaning(s[1..], a);
      AnyCidrFront(s, a);
      if s[0].base.fam == a.fam { AnyRowFront(rows, a.bits, Width(a.fam)); assert rows[1..] == rest; }
      else { assert rows == rest; }
    }
  }

  lemma AnyRowFront(rows: seq<(nat, nat)>, bits: nat, w: nat)
    requires rows != []
    ensures AnyRow(rows, bits, w) <==> And(bits, rows[0].1, w) == rows[0].0 || AnyRow(rows[1..], bits, w)
  {
    if AnyRow(rows[1..], bits, w) {
      var i :| 0 <= i < |rows[1..]| && And(bits, rows[1..][i].1, w) == rows[1..][i].0;
      assert rows[i + 1] == rows[1..][i];
    }
    if AnyRow(rows, bits, w) {
      var i :| 0 <= i < |rows| && And(bits, rows[i].1, w) == rows[i].0;
      if i > 0 { assert rows[1..][i - 1] == rows[i]; }
    }
  }

  lemma AnyCidrFront(s: seq<Cidr>, a: IpAddr)
    requires s != []
    ensures AnyCidr(s, a) <==> Contains(s[0], a) || AnyCidr(s[1..], a)
  {
    if AnyCidr(s[1..], a) {
      var i :| 0 <= i < |s[1..]| && Contains(s[1..][i], a);
      assert s[i + 1] == s[1..][i];
    }
    if AnyCidr(s, a) {
      var i :| 0 <= i < |s| && Contains(s[i], a);
      if i > 0 { assert s[1..][i - 1] == s[i]; }
    }
  }

  lemma {:induction false} InsertMeaning(c: Cidr, s: seq<Cidr>, a: IpAddr)
    ensures AnyCidr(Insert(c, s), a) <==> Contains(c, a) || AnyCidr(s, a)
  {
    AnyCidrFront(Insert(c, s), a);
    if s == [] || s[0].prefix <= c.prefix {
      assert Insert(c, s)[1..] == s;
    } else {
      assert Insert(c, s)[1..] == Insert(c, s[1..]);
      InsertMeaning(c, s[1..], a);
      AnyCidrFront(s, a);
    }
  }

  lemma {:induction false} SortMeaning(s: seq<Cidr>, a: IpAddr)
    ensures AnyCidr(SortByPrefix(s), a) <==> AnyCidr(s, a)
  {
    if s != [] {
      SortMeaning(s[1..], a);
      InsertMeaning(s[0], SortByPrefix(s[1..]), a);
      AnyCidrFront(s, a);
    }
  }

  lemma {:induction false} CidrsMeaning(entries: seq<Entry>, a: IpAddr)
    ensures AnyCidr(Cidrs(entries), a) <==> Covered(entries, a)
  {
    if entries != [] {
      var s := Cidrs(entries);
      assert s[1..] == Cidrs(entries[1..]);
      CidrsMeaning(entries[1..], a);
      AnyCidrFront(s, a);
      ContainsMeaning(entries[0], a);
      CoveredFront(entries, a);
    }
  }

  lemma CoveredFront(entries: seq<Entry>, a: IpAddr)
    requires entries != []
    ensures Covered(entries, a) <==> Covers(entries[0], a) || Covered(entries[1..], a)
  {
    if Covered(entries[1..], a) {
      var i :| 0 <= i < |entries[1..]| && Covers(entries[1..][i], a);
      assert entries[i + 1] == entries[1..][i];
    }
    if Covered(entries, a) {
      var i :| 0 <= i < |entries| && Covers(entries[i], a);
      if i > 0 { assert entries[1..][i - 1] == entries[i]; }
    }
  }

  /** The classifier says Direct exactly for the addresses some entry of the family covers. */
  lemma DecideMeaning(entries: seq<Entry>, a: IpAddr)
    ensures Decide(TableOf(entries), a).Direct? <==> Covered(entries, a)
  {
    var s := Cidrs(entries);
    RowsMeaning(SortByPrefix(s), a);
    SortMeaning(s, a);
    CidrsMeaning(entries, a);
  }

  ghost predicate SameEntries(xs: seq<Entry>, ys: seq<Entry>) { forall e :: e in xs <==> e in ys }

  /** Order and repetition never matter: lists with the same entries decide alike. */
  lemma SameEntriesDecideAlike(xs: seq<Entry>, ys: seq<Entry>, a: IpAddr)
    requires SameEntries(xs, ys)
    ensures Decide(TableOf(xs), a) == Decide(TableOf(ys), a)
  {
    DecideMeaning(xs, a);
    DecideMeaning(ys, a);
    if Covered(xs, a) {
      var i :| 0 <= i < |xs| && Covers(xs[i], a);
      assert xs[i] in ys;
    }
    if Covered(ys, a) {
      var i :| 0 <= i < |ys| && Covers(ys[i], a);
      assert ys[i] in xs;
    }
  }

  // ---- diff_cidrs ----

  /** The entries of `xs` that are not in `ys`, in order. */
  function Minus(xs: seq<Entry>, ys: seq<Entry>): (r: seq<Entry>)
    ensures forall e :: e in r <==> e in xs && e !in ys
  {
    if xs == [] then []
    else (if xs[0] !in ys then [xs[0]] else []) + Minus(xs[1..], ys)
  }

  /** What to add and what to remove to get from `was` to `now`. */
  function DiffCidrs(was: seq<Entry>, now: seq<Entry>): (r: (seq<Entry>, seq<Entry>))
    ensures r.0 == [] && r.1 == [] <==> forall e :: e in was <==> e in now
  {
    var r := (Minus(now, was), Minus(was, now));
    assert r.0 != [] ==> r.0[0] in now && r.0[0] !in was;
    assert r.1 != [] ==> r.1[0] in was && r.1[0] !in now;
    r
  }
}
