/** Automatic tuning: caps and buffer sizes from what the system reports. */
module Tuning {
  import opened Bytes

  const U64: nat := 0x1_0000_0000_0000_0000

  type U32 = x: int | 0 <= x < 0x1_0000_0000
  type Word = x: int | 0 <= x < U64     // u64, and usize on a 64-bit target

  datatype Probe = Probe(mtu: Option<U32>, v6Gateway: bool, memory: Option<Word>, fds: Option<Word>)

  datatype Settings = Settings(mtu: Word, relayBuf: Word, copyBuf: Word, stackBuf: Word, maxTcp: Word, maxUdp: Word,
                               captureV6: bool)

  function Max(a: Word, b: Word): Word { if a >= b then a else b }
  function Min(a: Word, b: Word): Word { if a <= b then a else b }

  function Clamp(x: Word, lo: Word, hi: Word): (r: Word)
    requires lo <= hi
    ensures lo <= r <= hi
  {
    if x < lo then lo else if x > hi then hi else x
  }

  function Or(o: Option<Word>, d: Word): Word { if o.Some? then o.value else d }

  function Memory(p: Probe): Word { Or(p.memory, 0x8000_0000) }
  function Descriptors(p: Probe): Word { Or(p.fds, 1024) }

  /** Memory one relayed connection may take. */
  function PerConnection(relayBuf: Word, copyBuf: Word): Word
    requires relayBuf <= 0x40_0000 && copyBuf <= 0x4_0000
  {
    2 * relayBuf + copyBuf
  }

  function MemoryConns(memory: Word, perConn: Word): Word { Max(memory / 4 / Max(perConn, 1), 1) }

  function FdConns(fds: Word): Word { Max((if fds >= 64 then fds - 64 else 0) / 2, 1) }

  /** Every operation here stays within 64 bits: each result is checked against `Word`. */
  function Compute(p: Probe): Settings {
    var mtu := Clamp(if p.mtu.Some? then p.mtu.value else 1500, 576, 65535);
    var memory := Memory(p);
    var fds := Descriptors(p);
    var relayBuf := Clamp(mtu * 176, 0x2_0000, 0x40_0000);
    var copyBuf := Clamp(mtu * 16, 0x8000, 0x4_0000);
    var stackBuf := Clamp(memory / 0x20_0000, 512, 4096);
    var maxTcp := Clamp(Min(MemoryConns(memory, PerConnection(relayBuf, copyBuf)), FdConns(fds)), 128, 65536);
    Settings(mtu, relayBuf, copyBuf, stackBuf, maxTcp, Clamp(maxTcp / 4, 64, 16384), p.v6Gateway)
  }

  // ---- Division ----

  lemma DivFits(a: nat, d: nat, n: nat)
    requires d > 0 && n <= a / d
    ensures n * d <= a
  {
    assert a == (a / d) * d + a % d;
    MulMono(n, a / d, d);
  }

  lemma MulMono(x: nat, y: nat, d: nat)
    requires x <= y
    ensures x * d <= y * d
  {
    assert y * d == x * d + (y - x) * d;
  }

  lemma DivMonoLeft(a: nat, b: nat, d: nat)
    requires d > 0 && a <= b
    ensures a / d <= b / d
  {
    DivFits(a, d, a / d);
    DivAtLeast(b, d, a / d);
  }

  lemma DivAtLeast(a: nat, d: nat, n: nat)
    requires d > 0 && n * d <= a
    ensures n <= a / d
  {
    if n > a / d { MulMono(a / d + 1, n, d); }
  }

  lemma DivMonoRight(a: nat, d: nat, e: nat)
    requires 0 < d <= e
    ensures a / e <= a / d
  {
    DivFits(a, e, a / e);
    MulMono(d, e, a / e);
    DivAtLeast(a, d, a / e);
  }

  // ---- Theorems ----

  /** The budget: a cap above its floor fits a quarter of memory at the computed buffer
      sizes, and the descriptor limit at two per connection with 64 in reserve. */
  lemma WithinBudget(p: Probe)
    ensures var s := Compute(p);
            && 128 <= s.maxTcp <= 65536 && 64 <= s.maxUdp <= 16384 && s.maxUdp <= s.maxTcp
            && (s.maxTcp > 128 ==>
                  && s.maxTcp * (2 * s.relayBuf + s.copyBuf) <= Memory(p) / 4
                  && 2 * s.maxTcp + 64 <= Descriptors(p))
  {
    var s := Compute(p);
    var memory := Memory(p);
    if s.maxTcp > 128 {
      DivFits(memory / 4, PerConnection(s.relayBuf, s.copyBuf), s.maxTcp);
    }
  }

  function Mtu(p: Probe): U32 { if p.mtu.Some? then p.mtu.value else 1500 }

  /** More memory or more descriptors never lower a cap; a larger MTU never shrinks a
      buffer and never raises the connection cap. */
  lemma Monotone(p: Probe, q: Probe)
    ensures Mtu(p) == Mtu(q) && Memory(p) <= Memory(q) && Descriptors(p) <= Descriptors(q) ==>
              && Compute(p).maxTcp <= Compute(q).maxTcp && Compute(p).maxUdp <= Compute(q).maxUdp
              && Compute(p).stackBuf <= Compute(q).stackBuf
    ensures Mtu(p) <= Mtu(q) && p.memory == q.memory && p.fds == q.fds ==>
              && Compute(p).relayBuf <= Compute(q).relayBuf && Compute(p).copyBuf <= Compute(q).copyBuf
              && Compute(q).maxTcp <= Compute(p).maxTcp && Compute(q).maxUdp <= Compute(p).maxUdp
  {
    var s, t := Compute(p), Compute(q);
    var pc, qc := PerConnection(s.relayBuf, s.copyBuf), PerConnection(t.relayBuf, t.copyBuf);
    var m, n := Memory(p), Memory(q);
    if Mtu(p) == Mtu(q) && m <= n && Descriptors(p) <= Descriptors(q) {
      DivMonoLeft(m / 4, n / 4, pc);
    }
    if Mtu(p) <= Mtu(q) && p.memory == q.memory && p.fds == q.fds {
      assert pc <= qc;
      DivMonoRight(m / 4, pc, qc);
    }
  }

  /** So many connections fit a quarter of memory at the computed buffer sizes and, at two
      descriptors each, the descriptor limit with 64 in reserve. */
  predicate Affordable(p: Probe, n: nat) {
    n * (2 * Compute(p).relayBuf + Compute(p).copyBuf) <= Memory(p) / 4 && 2 * n + 64 <= Descriptors(p)
  }

  /** The cap is the largest number from 128 to 65536 that is affordable, or 128 if none is;
      sessions are a quarter of it, from 64 to 16384. */
  lemma CapIsLargest(p: Probe)
    ensures var cap := Compute(p).maxTcp;
            && 128 <= cap <= 65536 && (cap > 128 ==> Affordable(p, cap))
            && (forall n | cap < n <= 65536 :: !Affordable(p, n))
    ensures Clipped(Compute(p).maxTcp / 4, 64, 16384, Compute(p).maxUdp)
  {
    WithinBudget(p);
    var s := Compute(p);
    var perConn := PerConnection(s.relayBuf, s.copyBuf);
    forall n | s.maxTcp < n <= 65536 ensures !Affordable(p, n) {
      if n * perConn <= Memory(p) / 4 { DivAtLeast(Memory(p) / 4, perConn, n); }
    }
  }

  /** `r` is the number from `lo` to `hi` that is nearest to `x`. */
  predicate Clipped(x: int, lo: int, hi: int, r: int) {
    && lo <= r <= hi && (lo <= x <= hi ==> r == x) && (x < lo ==> r == lo) && (x > hi ==> r == hi)
  }

  /** The MTU is the reported one within its limits; a relay buffer holds 176 packets, a
      copy buffer 16, within theirs; the stack gets a buffer slot for every two mebibytes
      of memory; IPv6 is captured if there is a gateway for it. */
  lemma SizesFollowProbe(p: Probe)
    ensures var s := Compute(p);
            && Clipped(Mtu(p), 576, 65535, s.mtu)
            && Clipped(176 * s.mtu, 131072, 4194304, s.relayBuf) && Clipped(16 * s.mtu, 32768, 262144, s.copyBuf)
            && Clipped(Memory(p) / 2097152, 512, 4096, s.stackBuf)
            && s.captureV6 == p.v6Gateway
  {
  }
}
