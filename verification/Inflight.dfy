/**
 The id bookkeeping of one pooled DNS connection: the `inflight` map, the id
 counter and the attempts that use them. Each function is one region under the
 `inflight` mutex.

 An attempt is named by its ticket, the value of the id counter that gave it its
 id: tickets are never reused, ids are tickets modulo 65536.
 */
module Inflight {
  import opened Bytes

  const IDS := 65536
  const MAX_INFLIGHT := 256

  /** A sender in the map and the attempt that put it there. The placeholder's
      receiver is dropped on the spot, so what is sent to it is lost. */
  datatype Slot = Placeholder(owner: nat) | Sender(owner: nat)

  datatype Outcome = Ok(reply: seq<Byte>) | Retry | Fatal

  datatype Phase =
    | Allocated              // holds an id, about to install its sender
    | Ready                  // sender installed, waiting for the writer mutex
    | Writing(sent: nat)     // holds the writer mutex, `sent` bytes are out
    | Written                // about to update last_used
    | Waiting                // awaiting the reply
    | Removing(fatal: bool)  // decided to give up, about to remove its id
    | Finished(outcome: Outcome)

  /** The receiving half of the attempt's oneshot channel. */
  datatype Rx = NoRx | Pending | Got(body: seq<Byte>) | Dropped

  datatype Attempt = Attempt(caller: nat, query: Query, phase: Phase, rx: Rx)

  /** The first vacant id at or after the counter is the one given out. */
  ghost predicate FirstVacant(taken: set<nat>, next: nat, ticket: nat) {
    && next <= ticket
    && ticket % IDS !in taken
    && forall t | next <= t < ticket :: t % IDS in taken
  }

  datatype Ids = Ids(inflight: map<nat, Slot>, next: nat, attempts: map<nat, Attempt>) {

    ghost predicate Vacant(ticket: nat) { FirstVacant(inflight.Keys, next, ticket) }

    function Allocate(ticket: nat, caller: nat, query: Query): Ids {
      Ids(inflight[ticket % IDS := Placeholder(ticket)], ticket + 1,
          attempts[ticket := Attempt(caller, query, Allocated, NoRx)])
    }

    /** An attempt still listens at the other end of the slot at `id`. */
    predicate Listening(id: nat) {
      && id in inflight && inflight[id].Sender?
      && inflight[id].owner in attempts && attempts[inflight[id].owner].rx.Pending?
    }

    /** The sender at `id`, if any, is used or dropped: its listener sees `rx`. */
    function Signal(id: nat, rx: Rx): map<nat, Attempt> {
      if Listening(id) then
        attempts[inflight[id].owner := attempts[inflight[id].owner].(rx := rx)]
      else attempts
    }

    /** `inflight.insert(id, tx)`: whatever sender was there is dropped. */
    function Install(k: nat): Ids
      requires k in attempts
    {
      var signalled := Signal(k % IDS, Dropped);
      Ids(inflight[k % IDS := Sender(k)], next, signalled[k := signalled[k].(phase := Ready, rx := Pending)])
    }

    /** `inflight.remove(&id)` by an attempt that gives up. */
    function Remove(k: nat, outcome: Outcome): Ids
      requires k in attempts
    {
      var signalled := Signal(k % IDS, Dropped);
      Ids(inflight - {k % IDS}, next, signalled[k := signalled[k].(phase := Finished(outcome))])
    }

    /** The reader takes the sender out of the map and sends the body through it. */
    function Deliver(id: nat, body: seq<Byte>): Ids {
      Ids(inflight - {id}, next, Signal(id, Got(body)))
    }

    /** The exiting reader clears the map; every sender in it is dropped. */
    function Clear(): (r: Ids)
      ensures r.attempts.Keys == attempts.Keys
    {
      Ids(map[], next,
          map k | k in attempts ::
            if Listening(k % IDS) && inflight[k % IDS].owner == k
            then attempts[k].(rx := Dropped) else attempts[k])
    }

    /** One attempt moves on by itself. */
    function Move(k: nat, phase: Phase, rx: Rx): Ids
      requires k in attempts
    {
      this.(attempts := attempts[k := attempts[k].(phase := phase, rx := rx)])
    }

    /** How many ids the counter has passed since the attempt's own. */
    function Lag(k: nat): int { next - 1 - k }

    /** Under the id of attempt `k` there is an entry of another attempt. */
    predicate Foreign(k: nat) { k % IDS in inflight && inflight[k % IDS].owner != k }

    /** The placeholder of attempt `k` is in its place. */
    predicate Reserved(k: nat) { k % IDS in inflight && inflight[k % IDS] == Placeholder(k) }
  }

  // ---- Ownership: whatever the server sends ----

  predicate Receiving(phase: Phase) {
    phase.Ready? || phase.Writing? || phase.Written? || phase.Waiting?
  }

  /** The attempt may own an installed sender. */
  predicate MayOwnSender(x: Attempt) {
    (Receiving(x.phase) && x.rx.Pending?) || (x.phase.Removing? && !x.rx.Got?)
  }

  /** The entry at `id` belongs to an attempt that has not finished and was given that id. */
  predicate SlotOwned(s: Ids, id: nat)
    requires id in s.inflight
  {
    var o := s.inflight[id].owner;
    && o in s.attempts
    && o % IDS == id
    && (if s.inflight[id].Placeholder? then s.attempts[o].phase.Allocated? else MayOwnSender(s.attempts[o]))
  }

  predicate Owned(s: Ids) {
    && (forall id | id in s.inflight :: SlotOwned(s, id))
    && (forall k | k in s.attempts :: k < s.next)
  }

  lemma OwnedAllocate(s: Ids, ticket: nat, caller: nat, query: Query)
    requires Owned(s) && s.Vacant(ticket)
    ensures Owned(s.Allocate(ticket, caller, query))
  {
    var d := s.Allocate(ticket, caller, query);
    forall id | id in d.inflight ensures SlotOwned(d, id) {
      if id in s.inflight { assert SlotOwned(s, id); }
    }
  }

  lemma OwnedInstall(s: Ids, k: nat)
    requires Owned(s) && k in s.attempts && s.attempts[k].phase.Allocated?
    ensures Owned(s.Install(k))
  {
    var d := s.Install(k);
    forall id | id in d.inflight ensures SlotOwned(d, id) {
      if id != k % IDS { assert SlotOwned(s, id); }
    }
  }

  lemma OwnedRemove(s: Ids, k: nat, outcome: Outcome)
    requires Owned(s) && k in s.attempts
    ensures Owned(s.Remove(k, outcome))
  {
    var d := s.Remove(k, outcome);
    forall id | id in d.inflight ensures SlotOwned(d, id) {
      assert SlotOwned(s, id);
    }
  }

  lemma OwnedDeliver(s: Ids, id: nat, body: seq<Byte>)
    requires Owned(s)
    ensures Owned(s.Deliver(id, body))
  {
    var d := s.Deliver(id, body);
    forall id | id in d.inflight ensures SlotOwned(d, id) {
      assert SlotOwned(s, id);
    }
  }

  lemma OwnedMove(s: Ids, k: nat, phase: Phase, rx: Rx)
    requires Owned(s) && k in s.attempts && !s.attempts[k].phase.Allocated?
    requires MayOwnSender(s.attempts[k]) ==> MayOwnSender(s.attempts[k].(phase := phase, rx := rx))
    ensures Owned(s.Move(k, phase, rx))
  {
    var d := s.Move(k, phase, rx);
    forall id | id in d.inflight ensures SlotOwned(d, id) {
      assert SlotOwned(s, id);
    }
  }

  // ---- Ordered entries: while installations are on time ----

  /** No later attempt was given the id while this entry was there. */
  predicate Newest(s: Ids, k: nat)
  {
    k % IDS in s.inflight ==> k <= s.inflight[k % IDS].owner
  }

  predicate Ordered(s: Ids) { forall k | k in s.attempts :: Newest(s, k) }

  /** On time, there is nobody else's entry under an attempt's id. */
  lemma OnTimeIsOwn(s: Ids, k: nat)
    requires Owned(s) && Ordered(s) && k in s.attempts && s.Lag(k) < IDS
    ensures !s.Foreign(k)
  {
    assert Newest(s, k);
    if k % IDS in s.inflight { assert SlotOwned(s, k % IDS); }
  }

  lemma OrderedAllocate(s: Ids, ticket: nat, caller: nat, query: Query)
    requires Owned(s) && Ordered(s) && s.Vacant(ticket)
    ensures Ordered(s.Allocate(ticket, caller, query))
  {
    var d := s.Allocate(ticket, caller, query);
    forall k | k in d.attempts ensures Newest(d, k) {
      if k != ticket { assert Newest(s, k); }
    }
  }

  lemma OrderedInstall(s: Ids, k: nat)
    requires Owned(s) && Ordered(s) && k in s.attempts && (s.Reserved(k) || s.Lag(k) < IDS)
    ensures Ordered(s.Install(k))
  {
    var d := s.Install(k);
    forall j | j in d.attempts ensures Newest(d, j) { assert Newest(s, j); }
  }

  /** Nobody enters the map. */
  lemma OrderedFewer(s: Ids, d: Ids)
    requires Ordered(s) && d.attempts.Keys == s.attempts.Keys
    requires forall id | id in d.inflight :: id in s.inflight && d.inflight[id] == s.inflight[id]
    ensures Ordered(d)
  {
    forall j | j in d.attempts ensures Newest(d, j) { assert Newest(s, j); }
  }

  /** A reply that finds no foreign entry reaches nobody but the attempt it is for. */
  lemma DeliverOwn(s: Ids, k: nat, body: seq<Byte>)
    requires !s.Foreign(k)
    ensures forall j | j in s.attempts && j != k :: s.Deliver(k % IDS, body).attempts[j] == s.attempts[j]
  {
  }

  // ---- Held ids: while the reader runs and replies and removals are on time ----

  /** An attempt that has no reply yet still has its own entry under its id. */
  predicate KeepsId(s: Ids, k: nat)
    requires k in s.attempts
  {
    var x := s.attempts[k];
    && (x.phase.Allocated? ==> s.Reserved(k))
    && (Receiving(x.phase) ==>
          x.rx.Got? || (x.rx.Pending? && k % IDS in s.inflight && s.inflight[k % IDS] == Sender(k)))
  }

  predicate Held(s: Ids) {
    && (forall k | k in s.attempts :: KeepsId(s, k))
    && Ordered(s)
    && |s.inflight| <= MAX_INFLIGHT
  }

  lemma HeldAllocate(s: Ids, ticket: nat, caller: nat, query: Query)
    requires Owned(s) && Held(s) && s.Vacant(ticket) && |s.inflight| < MAX_INFLIGHT
    ensures Held(s.Allocate(ticket, caller, query))
  {
    var d := s.Allocate(ticket, caller, query);
    forall k | k in d.attempts ensures KeepsId(d, k) && Newest(d, k) {
      if k != ticket { assert KeepsId(s, k) && Newest(s, k); }
    }
  }

  lemma HeldInstall(s: Ids, k: nat)
    requires Held(s) && k in s.attempts && s.attempts[k].phase.Allocated?
    ensures Held(s.Install(k))
  {
    var d := s.Install(k);
    assert KeepsId(s, k);
    assert d.inflight.Keys == s.inflight.Keys;
    forall j | j in d.attempts ensures KeepsId(d, j) && Newest(d, j) {
      assert KeepsId(s, j) && Newest(s, j);
    }
  }

  lemma HeldRemove(s: Ids, k: nat, outcome: Outcome)
    requires Owned(s) && Held(s) && k in s.attempts && s.attempts[k].phase.Removing? && !s.Foreign(k)
    ensures Held(s.Remove(k, outcome))
  {
    var d := s.Remove(k, outcome);
    forall j | j in d.attempts ensures KeepsId(d, j) && Newest(d, j) {
      assert KeepsId(s, j) && Newest(s, j);
    }
    assert d.inflight.Keys <= s.inflight.Keys;
    CardinalityMonotone(d.inflight.Keys, s.inflight.Keys);
  }

  lemma CardinalityMonotone(a: set<nat>, b: set<nat>)
    requires a <= b
    ensures |a| <= |b|
  {
    assert b == a + (b - a);
  }

  /** A reply that finds no foreign entry takes nobody else's. */
  lemma HeldDeliver(s: Ids, k: nat, body: seq<Byte>)
    requires Owned(s) && Held(s) && k in s.attempts && !s.attempts[k].phase.Allocated? && !s.Foreign(k)
    ensures Held(s.Deliver(k % IDS, body))
  {
    var d := s.Deliver(k % IDS, body);
    DeliverOwn(s, k, body);
    if k % IDS in s.inflight { assert SlotOwned(s, k % IDS); }
    forall j | j in d.attempts ensures KeepsId(d, j) && Newest(d, j) {
      assert KeepsId(s, j) && Newest(s, j);
    }
    CardinalityMonotone(d.inflight.Keys, s.inflight.Keys);
  }

  lemma HeldMove(s: Ids, k: nat, phase: Phase, rx: Rx)
    requires Held(s) && k in s.attempts && !s.attempts[k].phase.Allocated? && !phase.Allocated?
    requires Receiving(phase) ==> Receiving(s.attempts[k].phase) && rx == s.attempts[k].rx
    ensures Held(s.Move(k, phase, rx))
  {
    var d := s.Move(k, phase, rx);
    forall j | j in d.attempts ensures KeepsId(d, j) && Newest(d, j) {
      assert KeepsId(s, j) && Newest(s, j);
    }
  }
}
