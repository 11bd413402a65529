/** The UDP relay's session table, its completion messages and the DNS dispatch limit. */
module UdpSessions {

  const DONE_CHANNEL_DEPTH := 256

  type Source = nat

  /** A session task's life after its receiver closed: it has yet to send its completion
      message, the message is in the channel, or it has been received. */
  datatype Message = Unsent | Queued | Received

  datatype Session = Session(src: Source, open: bool, done: Message)

  /** `queue` is the completion channel. A message carries only its sender's source; the
      session number is there to tell messages apart in proofs. */
  datatype State = State(table: map<Source, nat>, sessions: map<nat, Session>, queue: seq<nat>, dnsTasks: nat)

  const Start := State(map[], map[], [], 0)

  datatype Event =
    | Packet(src: Source, number: nat)   // a datagram to relay; `number` is for a session it may start
    | DnsPacket                         // a datagram to port 53
    | DnsEnd                            // a DNS task ends and returns its permit
    | Close(id: nat)                    // a session task stops receiving
    | SendDone(id: nat)                 // and sends its source
    | ReceiveDone                       // the loop takes a completion message

  predicate Live(s: State, src: Source) {
    src in s.table && s.table[src] in s.sessions && s.sessions[s.table[src]].open
  }

  predicate Enabled(s: State, e: Event) {
    match e
    case Packet(_, number) => number !in s.sessions
    case DnsPacket => true
    case DnsEnd => s.dnsTasks > 0
    case Close(id) => id in s.sessions && s.sessions[id].open
    case SendDone(id) =>
      id in s.sessions && !s.sessions[id].open && s.sessions[id].done.Unsent? && |s.queue| < DONE_CHANNEL_DEPTH
    case ReceiveDone => s.queue != [] && s.queue[0] in s.sessions
  }

  function OnPacket(s: State, src: Source, number: nat, limit: nat): State {
    if Live(s, src) || |s.table| >= limit then s
    else s.(table := s.table[src := number], sessions := s.sessions[number := Session(src, true, Unsent)])
  }

  /** The table after a completion message from `dead`. */
  function OnDone(s: State, dead: Source): map<Source, nat> {
    if dead in s.table && !Live(s, dead) then s.table - {dead} else s.table
  }

  function Step(s: State, e: Event, limit: nat): State
    requires Enabled(s, e)
  {
    match e
    case Packet(src, number) => OnPacket(s, src, number, limit)
    case DnsPacket => if s.dnsTasks < limit then s.(dnsTasks := s.dnsTasks + 1) else s
    case DnsEnd => s.(dnsTasks := s.dnsTasks - 1)
    case Close(id) => s.(sessions := s.sessions[id := s.sessions[id].(open := false)])
    case SendDone(id) =>
      s.(sessions := s.sessions[id := s.sessions[id].(done := Queued)], queue := s.queue + [id])
    case ReceiveDone =>
      var id := s.queue[0];
      s.(table := OnDone(s, s.sessions[id].src),
         sessions := s.sessions[id := s.sessions[id].(done := Received)],
         queue := s.queue[1..])
  }

  ghost predicate Runs(s: State, es: seq<Event>, limit: nat)
    decreases |es|
  {
    es == [] || (Enabled(s, es[0]) && Runs(Step(s, es[0], limit), es[1..], limit))
  }

  ghost function After(s: State, es: seq<Event>, limit: nat): State
    requires Runs(s, es, limit)
    decreases |es|
  {
    if es == [] then s else After(Step(s, es[0], limit), es[1..], limit)
  }

  /** The loop's own state: the table, while the session tasks go on beside it. */
  class Loop {
    const limit: nat
    var table: map<Source, nat>
    var sessions: map<nat, Session>
    var queue: seq<nat>
    var dnsTasks: nat

    constructor (limit: nat)
      ensures this.limit == limit && Now() == Start
    {
      this.limit := limit;
      table, sessions, queue, dnsTasks := map[], map[], [], 0;
    }

    function Now(): State reads this { State(table, sessions, queue, dnsTasks) }

    /** The `done_rx.recv()` branch of the select loop. */
    method HandleDone()
      requires Enabled(Now(), ReceiveDone)
      modifies this`table, this`sessions, this`queue
      ensures Now() == Step(old(Now()), ReceiveDone, limit)
    {
      var id := queue[0];
      var dead := sessions[id].src;
      if dead in table && !(table[dead] in sessions && sessions[table[dead]].open) {
        table := table - {dead};
      }
      sessions := sessions[id := sessions[id].(done := Received)];
      queue := queue[1..];
    }

    /** The `udp_rx.next()` branch, for a datagram that is not DNS. */
    method HandlePacket(src: Source, number: nat)
      requires number !in sessions
      modifies this`table, this`sessions
      ensures Now() == Step(old(Now()), Packet(src, number), limit)
    {
      var live := src in table && table[src] in sessions && sessions[table[src]].open;
      if !live {
        if |table| >= limit { return; }
        sessions := sessions[number := Session(src, true, Unsent)];
        table := table[src := number];
      }
    }

    /** The same branch for a DNS datagram: a permit or nothing. */
    method HandleDns()
      modifies this`dnsTasks
      ensures Now() == Step(old(Now()), DnsPacket, limit)
    {
      if dnsTasks < limit { dnsTasks := dnsTasks + 1; }
    }
  }

  // ---- Invariants ----

  predicate EntryOk(s: State, src: Source)
    requires src in s.table
  {
    var id := s.table[src];
    id in s.sessions && s.sessions[id].src == src && (s.sessions[id].open || !s.sessions[id].done.Received?)
  }

  predicate SessionOk(s: State, id: nat)
    requires id in s.sessions
  {
    var x := s.sessions[id];
    && (x.open ==> x.src in s.table && s.table[x.src] == id && x.done.Unsent?)
    && (x.done.Queued? <==> id in s.queue)
  }

  ghost predicate Valid(s: State, limit: nat) {
    && |s.table| <= limit && s.dnsTasks <= limit && |s.queue| <= DONE_CHANNEL_DEPTH
    && (forall src | src in s.table :: EntryOk(s, src))
    && (forall id | id in s.sessions :: SessionOk(s, id))
    && (forall i | 0 <= i < |s.queue| :: s.queue[i] in s.sessions)
    && (forall i, j | 0 <= i < j < |s.queue| :: s.queue[i] != s.queue[j])
  }

  lemma ValidPacket(s: State, src: Source, number: nat, limit: nat)
    requires Valid(s, limit) && number !in s.sessions
    ensures Valid(OnPacket(s, src, number, limit), limit)
  {
    var d := OnPacket(s, src, number, limit);
    forall t | t in d.table ensures EntryOk(d, t) { if t in s.table { assert EntryOk(s, t); } }
    forall id | id in d.sessions ensures SessionOk(d, id) { if id != number { assert SessionOk(s, id); } }
  }

  lemma ValidTask(s: State, e: Event, limit: nat)
    requires Valid(s, limit) && Enabled(s, e) && (e.Close? || e.SendDone?)
    ensures Valid(Step(s, e, limit), limit)
  {
    var d := Step(s, e, limit);
    assert SessionOk(s, e.id);
    forall t | t in d.table ensures EntryOk(d, t) { assert EntryOk(s, t); }
    forall id | id in d.sessions ensures SessionOk(d, id) { assert SessionOk(s, id); }
  }

  lemma Smaller(m: map<Source, nat>, k: Source)
    ensures |m - {k}| <= |m|
  {
    if k in m { assert m.Keys == (m - {k}).Keys + {k}; } else { assert m - {k} == m; }
  }

  lemma ValidDone(s: State, limit: nat)
    requires Valid(s, limit) && Enabled(s, ReceiveDone)
    ensures Valid(Step(s, ReceiveDone, limit), limit)
  {
    var d := Step(s, ReceiveDone, limit);
    var q := s.queue[0];
    assert SessionOk(s, q);
    Smaller(s.table, s.sessions[q].src);
    forall t | t in d.table ensures EntryOk(d, t) { assert EntryOk(s, t); }
    forall id | id in d.sessions ensures SessionOk(d, id) {
      assert SessionOk(s, id);
      assert id != q ==> (id in s.queue <==> id in s.queue[1..]);
    }
  }

  lemma ValidStep(s: State, e: Event, limit: nat)
    requires Valid(s, limit) && Enabled(s, e)
    ensures Valid(Step(s, e, limit), limit)
  {
    match e
    case Packet(src, number) => ValidPacket(s, src, number, limit);
    case Close(_) => ValidTask(s, e, limit);
    case SendDone(_) => ValidTask(s, e, limit);
    case ReceiveDone => ValidDone(s, limit);
    case DnsPacket => ValidDns(s, Step(s, e, limit), limit);
    case DnsEnd => ValidDns(s, Step(s, e, limit), limit);
  }

  lemma ValidDns(s: State, d: State, limit: nat)
    requires Valid(s, limit) && d == s.(dnsTasks := d.dnsTasks) && d.dnsTasks <= limit
    ensures Valid(d, limit)
  {
    forall t | t in d.table ensures EntryOk(d, t) { assert EntryOk(s, t); }
    forall id | id in d.sessions ensures SessionOk(d, id) { assert SessionOk(s, id); }
  }

  lemma {:induction false} ValidRun(s: State, es: seq<Event>, limit: nat)
    requires Valid(s, limit) && Runs(s, es, limit)
    ensures Valid(After(s, es, limit), limit)
    decreases |es|
  {
    if es != [] {
      ValidStep(s, es[0], limit);
      ValidRun(Step(s, es[0], limit), es[1..], limit);
    }
  }

  // ---- Theorems ----

  ghost function Open(s: State): set<nat> { set id | id in s.sessions && s.sessions[id].open }

  lemma {:induction false} OpenFitTable(open: set<nat>, table: map<Source, nat>)
    requires forall id | id in open :: exists src :: src in table && table[src] == id
    ensures |open| <= |table|
    decreases |table|
  {
    if open != {} {
      var id :| id in open;
      var src :| src in table && table[src] == id;
      var rest := table - {src};
      forall other | other in open - {id} ensures exists t :: t in rest && rest[t] == other {
        var t :| t in table && table[t] == other;
        assert t in rest && rest[t] == other;
      }
      assert table.Keys == rest.Keys + {src};
      OpenFitTable(open - {id}, rest);
    }
  }

  /** Over every run: the table has at most `limit` entries; every session with an open
      receiver is its source's current entry, so there is at most one per source and at
      most `limit` in all; every closed entry's completion message is still to be sent or
      in the channel; and at most `limit` DNS queries run at once. */
  lemma TableTheorem(es: seq<Event>, limit: nat)
    requires Runs(Start, es, limit)
    ensures var s := After(Start, es, limit);
            && |s.table| <= limit
            && (forall id | id in Open(s) :: s.sessions[id].src in s.table && s.table[s.sessions[id].src] == id)
            && |Open(s)| <= limit
            && (forall src | src in s.table && !Live(s, src) ::
                  s.table[src] in s.sessions && (s.sessions[s.table[src]].done.Unsent? || s.table[src] in s.queue))
            && s.dnsTasks <= limit
  {
    ValidRun(Start, es, limit);
    var s := After(Start, es, limit);
    forall id | id in Open(s) ensures s.sessions[id].src in s.table && s.table[s.sessions[id].src] == id {
      assert SessionOk(s, id);
    }
    OpenFitTable(Open(s), s.table);
    forall src | src in s.table && !Live(s, src)
      ensures s.table[src] in s.sessions && (s.sessions[s.table[src]].done.Unsent? || s.table[src] in s.queue)
    {
      assert EntryOk(s, src) && SessionOk(s, s.table[src]);
    }
  }

  /** A completion message, however late, never removes or closes a live session, does
      remove its sender's own entry, and leaves the entries of all other sources. */
  lemma StaleDoneHarmless(es: seq<Event>, limit: nat)
    requires Runs(Start, es, limit) && Enabled(After(Start, es, limit), ReceiveDone)
    ensures var s := After(Start, es, limit);
            var d := Step(s, ReceiveDone, limit);
            && (forall src | Live(s, src) :: Live(d, src) && d.table[src] == s.table[src])
            && (forall src | src in d.table :: d.table[src] != s.queue[0])
            && (forall src | src != s.sessions[s.queue[0]].src && src in s.table ::
                  src in d.table && d.table[src] == s.table[src])
  {
    ValidRun(Start, es, limit);
    var s := After(Start, es, limit);
    var d := Step(s, ReceiveDone, limit);
    assert SessionOk(s, s.queue[0]);
    forall src | src in d.table ensures d.table[src] != s.queue[0] { assert EntryOk(s, src); }
  }

  predicate AllOver(s: State) { forall id | id in s.sessions :: !s.sessions[id].open && s.sessions[id].done.Received? }

  lemma NothingLeft(s: State, limit: nat)
    requires Valid(s, limit) && AllOver(s)
    ensures s.table == map[]
  {
  }

  /** Once every session has closed and every completion message has been received,
      the table is empty. */
  lemma TableDrains(es: seq<Event>, limit: nat)
    requires Runs(Start, es, limit) && AllOver(After(Start, es, limit))
    ensures After(Start, es, limit).table == map[]
  {
    ValidRun(Start, es, limit);
    NothingLeft(After(Start, es, limit), limit);
  }

  // ---- What a datagram brings about ----

  /** The entry of `src`, if any, is the same in both states. */
  predicate SameEntry(s: State, d: State, src: Source) {
    (src in s.table <==> src in d.table) && (src in s.table ==> d.table[src] == s.table[src])
  }

  /** In every run, after a datagram its source has a live session if and only if it had
      one or there was room in the table; a live session is kept, a new one is the one just
      started, and no other source or session is touched. */
  lemma PacketStarts(es: seq<Event>, src: Source, number: nat, limit: nat)
    requires Runs(Start, es, limit) && Enabled(After(Start, es, limit), Packet(src, number))
    ensures var s := After(Start, es, limit);
            var d := Step(s, Packet(src, number), limit);
            && (Live(d, src) <==> Live(s, src) || |s.table| < limit)
            && (Live(s, src) ==> d.table[src] == s.table[src])
            && (Live(d, src) && !Live(s, src) ==> d.table[src] == number && number in Open(d))
            && (!Live(d, src) ==> SameEntry(s, d, src))
            && (forall other | other != src :: SameEntry(s, d, other))
            && (forall id | id in s.sessions :: id in d.sessions && d.sessions[id] == s.sessions[id])
            && d.queue == s.queue && d.dnsTasks == s.dnsTasks
  {
    ValidRun(Start, es, limit);
  }

  /** In every run, a DNS datagram starts one more query exactly when fewer than `limit`
      run, and touches no session. */
  lemma DnsStarts(es: seq<Event>, limit: nat)
    requires Runs(Start, es, limit)
    ensures var s := After(Start, es, limit);
            var d := Step(s, DnsPacket, limit);
            && (d.dnsTasks > s.dnsTasks <==> s.dnsTasks < limit)
            && d.dnsTasks <= limit && d.dnsTasks <= s.dnsTasks + 1
            && d == s.(dnsTasks := d.dnsTasks)
  {
    ValidRun(Start, es, limit);
  }
}
