/** `Conn::allocate_id` as it runs, on the shared map and the 64-bit counter. */
module ConnIds {
  import opened Bytes
  import opened Inflight

  const U64: nat := 0x1_0000_0000_0000_0000

  /** Masking the wrapped 64-bit counter gives the id of the unbounded ticket. */
  lemma WrappedId(ticket: nat)
    ensures (ticket % U64) % IDS == ticket % IDS
  {
    var q := ticket / U64;
    assert ticket == q * U64 + ticket % U64;
    assert q * U64 == (q * 0x1_0000_0000_0000) * IDS;
    ModPlus(q * 0x1_0000_0000_0000, ticket % U64);
  }

  lemma {:induction false} ModPlus(q: nat, r: nat)
    ensures (q * IDS + r) % IDS == r % IDS
  {
    if q > 0 { ModPlus(q - 1, r); }
  }

  lemma WrappedSuccessor(ticket: nat)
    ensures (ticket % U64 + 1) % U64 == (ticket + 1) % U64
  {
  }

  /** The ids of `n` consecutive counter values. */
  ghost function Probed(next: nat, n: nat): (r: set<nat>)
    ensures forall t | next <= t < next + n :: t % IDS in r
  {
    if n == 0 then {} else Probed(next, n - 1) + {(next + n - 1) % IDS}
  }

  lemma {:induction false} ProbedFrom(next: nat, n: nat, id: nat)
    requires id in Probed(next, n)
    ensures exists t :: next <= t < next + n && t % IDS == id
  {
    if id == (next + n - 1) % IDS { assert next <= next + n - 1 < next + n; } else { ProbedFrom(next, n - 1, id); }
  }

  /** Up to 65536 consecutive values have distinct ids, so n of them occupied means n ids are out. */
  lemma {:induction false} ProbedSize(next: nat, n: nat, taken: set<nat>)
    requires n <= IDS && Probed(next, n) <= taken
    ensures |Probed(next, n)| == n <= |taken|
  {
    if n > 0 {
      var id := (next + n - 1) % IDS;
      ProbedSize(next, n - 1, taken);
      assert Probed(next, n) == Probed(next, n - 1) + {id};
      if id in Probed(next, n - 1) {
        ProbedFrom(next, n - 1, id);
        var t :| next <= t < next + n - 1 && t % IDS == id;
        Apart(t, next + n - 1);
      }
    }
    CardinalityMonotone(Probed(next, n), taken);
  }

  lemma Apart(t: nat, u: nat)
    requires t < u < t + IDS
    ensures t % IDS != u % IDS
  {
  }

  /** With n < 65536 ids out there is a vacant one within n + 1 probes, wherever the
      counter stands. */
  lemma IdAvailable(taken: set<nat>, next: nat) returns (ticket: nat)
    requires |taken| < IDS
    ensures FirstVacant(taken, next, ticket) && ticket - next <= |taken|
  {
    ticket := next;
    while ticket % IDS in taken
      invariant next <= ticket <= next + |taken|
      invariant Probed(next, ticket - next) <= taken
      invariant forall t | next <= t < ticket :: t % IDS in taken
      decreases next + |taken| - ticket
    {
      ProbedSize(next, ticket - next + 1, taken);
      ticket := ticket + 1;
    }
  }

  /** `S` is the type of the senders in the map. */
  class Conn<S> {
    var inflight: map<nat, S>
    var nextId: nat            // AtomicU64: always below 2^64

    ghost predicate Valid() reads this { nextId < U64 }

    constructor ()
      ensures Valid() && inflight == map[] && nextId == 0
    {
      inflight, nextId := map[], 0;
    }

    /** Gives out the first vacant id at or after the counter, or refuses when 256
        ids are out, and puts `tx` under it. `next` is the counter without wrap-around; the loop never gets
        past n + 1 probes when n ids are out, so it never fails for lack of one. */
    method AllocateId(tx: S, ghost next: nat) returns (r: Option<nat>, ghost ticket: nat)
      requires Valid() && nextId == next % U64
      modifies this
      ensures Valid()
      ensures r.None? <==> |old(inflight)| >= MAX_INFLIGHT
      ensures r.None? ==> inflight == old(inflight) && nextId == old(nextId)
      ensures r.Some? ==>
                && FirstVacant(old(inflight).Keys, next, ticket)
                && r.value == ticket % IDS
                && ticket - next <= |old(inflight)|
                && inflight == old(inflight)[r.value := tx]
                && nextId == (ticket + 1) % U64
    {
      ticket := next;
      if |inflight| >= MAX_INFLIGHT { return None, ticket; }
      for i := 0 to IDS
        invariant ticket == next + i && inflight == old(inflight) && nextId == ticket % U64
        invariant Probed(next, i) <= inflight.Keys
      {
        WrappedId(ticket);
        WrappedSuccessor(ticket);
        var candidate := nextId % IDS;
        nextId := (nextId + 1) % U64;
        if candidate !in inflight {
          ProbedSize(next, i, inflight.Keys);
          inflight := inflight[candidate := tx];
          return Some(candidate), ticket;
        }
        ticket := ticket + 1;
      }
      ProbedSize(next, IDS, inflight.Keys);
      r := None;
    }
  }
}
