/**
 The DNS connection pool as a state machine: any number of `resolve`, `prune` and
 `set_proxy` calls interleave over shared connections.

 The mutexes held across await points (`open_lock` and `conns`) are explicit; a
 region without await points under `conns` is one event that needs the mutex
 free. Everything inside one connection is an event of `Mux`.
 */
module Pool {
  import opened Bytes
  import opened Inflight
  import Mux

  const MAX_CONNS_PER_TARGET := 8

  type Server = nat

  /** A connection, the target it was opened for, which proxy it goes through (the proxy
      configurations are numbered in the order they were stored), which call opened it,
      and whether that was a forced open. */
  datatype Link = Link(server: Server, version: nat, opener: nat, forced: bool, conn: Mux.Conn)

  datatype Pc =
    | WantConns(locked: bool)                 // try_reuse; `locked`: under open_lock
    | Probing(locked: bool, todo: seq<nat>)   // holds conns, tries the bucket in order
    | WantOpen                                // waits for open_lock
    | WantCheck                               // waits for conns to check the cap
    | Loading                                 // about to load the proxy
    | Dialing(version: nat)                   // connecting through that proxy
    | Allocating(link: nat)                   // connected, not yet in the pool
    | WantPublish(link: nat, ticket: nat)     // waits for conns to push
    | Running(link: nat, ticket: nat)         // an attempt on the connection
    | Answered(link: nat, ticket: nat, reply: seq<Byte>)
    | Failed

  datatype PrunePc =
    | WantPrune
    | Scanning(todo: seq<nat>)
    | Checking(link: nat, todo: seq<nat>)
    | Retiring(link: nat, todo: seq<nat>)
    | Pruned

  /** `forced` is the second round of `resolve`, which opens a new connection. */
  datatype Task =
    | Resolve(server: Server, query: Query, forced: bool, pc: Pc)
    | Prune(prune: PrunePc)
    | Swap(version: nat, done: bool)

  datatype State = State(
    links: map<nat, Link>,
    buckets: map<Server, seq<nat>>,
    openLock: Option<nat>,
    connsLock: Option<nat>,
    version: nat,                 // the proxy currently stored
    cleared: nat,                 // the newest proxy whose set_proxy has cleared the pool
    tasks: map<nat, Task>)

  const Empty := State(map[], map[], None, None, 0, 0, map[])

  // ---- Helpers ----

  function Bucket(s: State, server: Server): seq<nat> {
    if server in s.buckets then s.buckets[server] else []
  }

  predicate Distinct(bucket: seq<nat>) {
    bucket == [] || (bucket[0] !in bucket[1..] && Distinct(bucket[1..]))
  }

  predicate Pooled(s: State, l: nat) { l in s.links && l in Bucket(s, s.links[l].server) }

  predicate Alive(s: State, l: nat) { l in s.links && s.links[l].conn.alive }

  /** `bucket.retain(|c| c.alive)` */
  function Retained(s: State, bucket: seq<nat>): (r: seq<nat>)
    ensures |r| <= |bucket|
    ensures forall l :: l in r <==> l in bucket && Alive(s, l)
    ensures Distinct(bucket) ==> Distinct(r)
  {
    if bucket == [] then []
    else if Alive(s, bucket[0]) then [bucket[0]] + Retained(s, bucket[1..])
    else Retained(s, bucket[1..])
  }

  function Without(bucket: seq<nat>, l: nat): (r: seq<nat>)
    ensures |r| <= |bucket|
    ensures forall m :: m in r <==> m in bucket && m != l
    ensures Distinct(bucket) ==> Distinct(r)
  {
    if bucket == [] then []
    else if bucket[0] != l then [bucket[0]] + Without(bucket[1..], l)
    else Without(bucket[1..], l)
  }

  function RetainIn(s: State, server: Server): State {
    s.(buckets := s.buckets[server := Retained(s, Bucket(s, server))])
  }

  function DropFromPool(s: State, l: nat): State
    requires l in s.links
  {
    s.(buckets := s.buckets[s.links[l].server := Without(Bucket(s, s.links[l].server), l)])
  }

  ghost function OnLink(s: State, l: nat, e: Mux.Event): State
    requires l in s.links && Mux.Enabled(s.links[l].conn, e)
  {
    s.(links := s.links[l := s.links[l].(conn := Mux.Step(s.links[l].conn, e))])
  }

  function SetPc(s: State, t: nat, pc: Pc): State
    requires t in s.tasks && s.tasks[t].Resolve?
  {
    s.(tasks := s.tasks[t := s.tasks[t].(pc := pc)])
  }

  function SetPrune(s: State, t: nat, pc: PrunePc): State {
    s.(tasks := s.tasks[t := Prune(pc)])
  }

  /** The attempt asks for a retry: the first round goes on to the second, the second gives up. */
  function Again(s: State, t: nat): State
    requires t in s.tasks && s.tasks[t].Resolve?
  {
    s.(tasks := s.tasks[t := if s.tasks[t].forced then s.tasks[t].(pc := Failed)
                             else s.tasks[t].(forced := true, pc := WantOpen)])
  }

  // ---- resolve ----

  datatype Act =
    | Enter                  // lock conns, drop dead connections, start probing
    | Hit(ticket: nat)       // allocate_id on the connection in turn succeeds
    | Miss                   // it is full
    | Exhaust                // no connection left to try
    | LockOpen
    | Check                  // the cap, under conns
    | Load
    | DialFail
    | DialOk(link: nat)
    | First(ticket: nat)     // allocate_id on the fresh connection
    | Publish                // push it, under conns
    | Finish                 // the attempt is over

  ghost predicate CanAllocate(s: State, t: nat, l: nat, ticket: nat)
    requires t in s.tasks && s.tasks[t].Resolve?
  {
    l in s.links && Mux.Enabled(s.links[l].conn, Mux.Allocate(ticket, t, s.tasks[t].query))
  }

  ghost predicate ActEnabled(s: State, t: nat, act: Act)
    requires t in s.tasks && s.tasks[t].Resolve?
  {
    var pc := s.tasks[t].pc;
    match act
    case Enter => pc.WantConns? && s.connsLock.None?
    case Hit(ticket) => pc.Probing? && pc.todo != [] && CanAllocate(s, t, pc.todo[0], ticket)
    case Miss => pc.Probing? && pc.todo != [] && pc.todo[0] in s.links
                 && |s.links[pc.todo[0]].conn.ids.inflight| >= MAX_INFLIGHT
    case Exhaust => pc.Probing? && pc.todo == []
    case LockOpen => pc.WantOpen? && s.openLock.None?
    case Check => pc.WantCheck? && s.connsLock.None?
    case Load => pc.Loading?
    case DialFail => pc.Dialing?
    case DialOk(l) => pc.Dialing? && l !in s.links
    case First(ticket) => pc.Allocating? && CanAllocate(s, t, pc.link, ticket)
    case Publish => pc.WantPublish? && s.connsLock.None? && pc.link in s.links
    case Finish => pc.Running? && pc.link in s.links && pc.ticket in s.links[pc.link].conn.ids.attempts
                   && s.links[pc.link].conn.ids.attempts[pc.ticket].phase.Finished?
  }

  ghost function Acted(s: State, t: nat, act: Act): State
    requires t in s.tasks && s.tasks[t].Resolve? && ActEnabled(s, t, act)
  {
    var task := s.tasks[t];
    var pc := task.pc;
    match act
    case Enter =>
      SetPc(RetainIn(s, task.server), t, Probing(pc.locked, Retained(s, Bucket(s, task.server)))).(connsLock := Some(t))
    case Hit(ticket) =>
      SetPc(OnLink(s, pc.todo[0], Mux.Allocate(ticket, t, task.query)), t, Running(pc.todo[0], ticket))
        .(connsLock := None, openLock := if pc.locked then None else s.openLock)
    case Miss => SetPc(s, t, Probing(pc.locked, pc.todo[1..]))
    case Exhaust => SetPc(s, t, if pc.locked then WantCheck else WantOpen).(connsLock := None)
    case LockOpen => SetPc(s, t, if task.forced then Loading else WantConns(true)).(openLock := Some(t))
    case Check =>
      var r := RetainIn(s, task.server);
      if |Bucket(r, task.server)| >= MAX_CONNS_PER_TARGET then Again(r, t).(openLock := None) else SetPc(r, t, Loading)
    case Load => SetPc(s, t, Dialing(s.version))
    case DialFail => Again(s, t).(openLock := None)
    case DialOk(l) =>
      SetPc(s, t, Allocating(l)).(links := s.links[l := Link(task.server, pc.version, t, task.forced, Mux.Opened)])
    case First(ticket) =>
      SetPc(OnLink(s, pc.link, Mux.Allocate(ticket, t, task.query)), t, WantPublish(pc.link, ticket))
    case Publish =>
      SetPc(s, t, Running(pc.link, pc.ticket))
        .(openLock := None, buckets := s.buckets[task.server := Bucket(s, task.server) + [pc.link]])
    case Finish =>
      match s.links[pc.link].conn.ids.attempts[pc.ticket].phase.outcome
      case Ok(reply) => SetPc(s, t, Answered(pc.link, pc.ticket, reply))
      case Retry => Again(s, t)
      case Fatal => SetPc(s, t, Failed)
  }

  // ---- prune and set_proxy ----

  datatype PruneAct =
    | EnterPrune(todo: seq<nat>)  // lock conns; the buckets' connections in some order
    | Look                        // drop the connection if dead
    | Verify(idle: bool)          // inflight empty and unused for longer than the idle timeout?
    | Retire                      // alive := false, drop it
    | EndPrune

  ghost predicate PruneEnabled(s: State, pc: PrunePc, act: PruneAct) {
    match act
    case EnterPrune(todo) => pc.WantPrune? && s.connsLock.None? && forall l :: l in todo <==> Pooled(s, l)
    case Look => pc.Scanning? && pc.todo != [] && pc.todo[0] in s.links
    case Verify(_) => pc.Checking? && pc.link in s.links
    case Retire => pc.Retiring? && pc.link in s.links
    case EndPrune => pc.Scanning? && pc.todo == []
  }

  ghost function PruneStep(s: State, t: nat, pc: PrunePc, act: PruneAct): State
    requires PruneEnabled(s, pc, act)
  {
    match act
    case EnterPrune(todo) => SetPrune(s, t, Scanning(todo)).(connsLock := Some(t))
    case Look =>
      if Alive(s, pc.todo[0]) then SetPrune(s, t, Checking(pc.todo[0], pc.todo[1..]))
      else SetPrune(DropFromPool(s, pc.todo[0]), t, Scanning(pc.todo[1..]))
    case Verify(idle) =>
      if idle && s.links[pc.link].conn.ids.inflight == map[] then SetPrune(s, t, Retiring(pc.link, pc.todo))
      else SetPrune(s, t, Scanning(pc.todo))
    case Retire => SetPrune(DropFromPool(OnLink(s, pc.link, Mux.Flag(Mux.Kill)), pc.link), t, Scanning(pc.todo))
    case EndPrune => SetPrune(s, t, Pruned).(connsLock := None)
  }

  function KillPooled(s: State): map<nat, Link> {
    map l | l in s.links ::
      if Pooled(s, l) then s.links[l].(conn := s.links[l].conn.(alive := false)) else s.links[l]
  }

  // ---- Events ----

  datatype Event =
    | Call(t: nat, server: Server, query: Query)
    | StartPrune(t: nat)
    | StartSwap(t: nat)                    // set_proxy stores the new proxy
    | EndSwap(t: nat)                      // then, under conns, retires and drops every connection
    | Do(t: nat, act: Act)
    | DoPrune(t: nat, prune: PruneAct)
    | Inside(link: nat, e: Mux.Event)      // an attempt or the reader of a connection moves

  /** An attempt moves when its task is at it; the reader of a connection any time. */
  ghost predicate InTurn(s: State, l: nat, e: Mux.Event)
    requires l in s.links && Mux.Enabled(s.links[l].conn, e)
  {
    match e
    case Allocate(_, _, _) => false
    case Flag(signal) => !signal.Kill?
    case Deliver(_, _) => true
    case Clear => true
    case _ =>
      var t := s.links[l].conn.ids.attempts[e.k].caller;
      t in s.tasks && s.tasks[t].Resolve? && s.tasks[t].pc == Running(l, e.k)
  }

  ghost predicate Enabled(s: State, e: Event) {
    match e
    case Call(t, _, _) => t !in s.tasks
    case StartPrune(t) => t !in s.tasks
    case StartSwap(t) => t !in s.tasks
    case EndSwap(t) => t in s.tasks && s.tasks[t].Swap? && !s.tasks[t].done && s.connsLock.None?
    case Do(t, act) => t in s.tasks && s.tasks[t].Resolve? && ActEnabled(s, t, act)
    case DoPrune(t, act) => t in s.tasks && s.tasks[t].Prune? && PruneEnabled(s, s.tasks[t].prune, act)
    case Inside(l, e) => l in s.links && Mux.Enabled(s.links[l].conn, e) && InTurn(s, l, e)
  }

  ghost function Step(s: State, e: Event): State
    requires Enabled(s, e)
  {
    match e
    case Call(t, server, query) => s.(tasks := s.tasks[t := Resolve(server, query, false, WantConns(false))])
    case StartPrune(t) => SetPrune(s, t, WantPrune)
    case StartSwap(t) => s.(tasks := s.tasks[t := Swap(s.version + 1, false)], version := s.version + 1)
    case EndSwap(t) =>
      s.(tasks := s.tasks[t := s.tasks[t].(done := true)], links := KillPooled(s), buckets := map[],
         cleared := if s.tasks[t].version > s.cleared then s.tasks[t].version else s.cleared)
    case Do(t, act) => Acted(s, t, act)
    case DoPrune(t, act) => PruneStep(s, t, s.tasks[t].prune, act)
    case Inside(l, e) => OnLink(s, l, e)
  }

  ghost predicate Runs(s: State, es: seq<Event>)
    decreases |es|
  {
    es == [] || (Enabled(s, es[0]) && Runs(Step(s, es[0]), es[1..]))
  }

  ghost function After(s: State, es: seq<Event>): State
    requires Runs(s, es)
    decreases |es|
  {
    if es == [] then s else After(Step(s, es[0]), es[1..])
  }

  /** On every connection replies, removals and installations keep to the lags. */
  ghost predicate TimelyRun(s: State, es: seq<Event>, lags: Mux.Lags)
    requires Runs(s, es)
    decreases |es|
  {
    es == [] || (&& (es[0].Inside? ==> Mux.Timely(s.links[es[0].link].conn, es[0].e, lags))
                 && TimelyRun(Step(s, es[0]), es[1..], lags))
  }
}
