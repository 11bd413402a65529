/** What single steps of the DNS pool change, and mutual exclusion on its mutexes. */
module PoolShape {
  import opened Bytes
  import opened Inflight
  import Mux
  import opened Pool

  // ---- What one step of a resolve changes ----

  predicate Acting(s: State, t: nat) { t in s.tasks && s.tasks[t].Resolve? }

  /** Its own task only, which keeps its server and query. */
  ghost predicate OwnTask(s: State, d: State, t: nat) {
    && Acting(s, t) && Acting(d, t) && d.tasks == s.tasks[t := d.tasks[t]]
    && d.tasks[t].server == s.tasks[t].server && d.tasks[t].query == s.tasks[t].query
    && d.version == s.version && d.cleared == s.cleared
  }

  lemma ActedTasks(s: State, t: nat, act: Act)
    requires Acting(s, t) && ActEnabled(s, t, act)
    ensures OwnTask(s, Acted(s, t, act), t)
  {
  }

  /** The connections in three of its steps only. */
  ghost predicate LinksChange(s: State, d: State, t: nat, act: Act)
    requires Acting(s, t) && ActEnabled(s, t, act)
  {
    var pc, query := s.tasks[t].pc, s.tasks[t].query;
    if act.Hit? then d.links == OnLink(s, pc.todo[0], Mux.Allocate(act.ticket, t, query)).links
    else if act.First? then d.links == OnLink(s, pc.link, Mux.Allocate(act.ticket, t, query)).links
    else if act.DialOk? then
      d.links == s.links[act.link := Link(s.tasks[t].server, pc.version, t, s.tasks[t].forced, Mux.Opened)]
    else d.links == s.links
  }

  lemma ActedLinks(s: State, t: nat, act: Act)
    requires Acting(s, t) && ActEnabled(s, t, act)
    ensures LinksChange(s, Acted(s, t, act), t, act)
  {
  }

  ghost predicate Shrunk(s: State, d: State) {
    && (forall server :: |Bucket(d, server)| <= |Bucket(s, server)|)
    && (forall server, l | l in Bucket(d, server) :: l in Bucket(s, server))
    && (forall server | Distinct(Bucket(s, server)) :: Distinct(Bucket(d, server)))
  }

  /** The buckets lose connections, except when it publishes its own. */
  lemma ActedBuckets(s: State, t: nat, act: Act)
    requires Acting(s, t) && ActEnabled(s, t, act)
    ensures var d := Acted(s, t, act);
            if act.Publish? then
              var task := s.tasks[t];
              d.buckets == s.buckets[task.server := Bucket(s, task.server) + [task.pc.link]]
            else Shrunk(s, d)
  {
  }

  /** A step of `prune` kills at most the connection it retires, and the buckets lose connections. */
  lemma PruneShape(s: State, t: nat, pc: PrunePc, act: PruneAct)
    requires PruneEnabled(s, pc, act)
    ensures var d := PruneStep(s, t, pc, act);
            && (if act.Retire? then d.links == OnLink(s, pc.link, Mux.Flag(Mux.Kill)).links else d.links == s.links)
            && t in d.tasks && d.tasks[t].Prune? && d.tasks == s.tasks[t := d.tasks[t]]
            && d.version == s.version && d.cleared == s.cleared
            && Shrunk(s, d)
  {
  }

  // ---- Mutual exclusion: who holds open_lock and conns ----

  predicate HoldsOpen(task: Task) {
    && task.Resolve?
    && match task.pc
       case WantConns(locked) => locked
       case Probing(locked, _) => locked
       case WantCheck => true
       case Loading => true
       case Dialing(_) => true
       case Allocating(_) => true
       case WantPublish(_, _) => true
       case _ => false
  }

  predicate HoldsConns(task: Task) {
    || (task.Resolve? && task.pc.Probing?)
    || (task.Prune? && (task.prune.Scanning? || task.prune.Checking? || task.prune.Retiring?))
  }

  ghost predicate LocksOk(s: State) {
    && (forall t | t in s.tasks :: HoldsOpen(s.tasks[t]) <==> s.openLock == Some(t))
    && (forall t | t in s.tasks :: HoldsConns(s.tasks[t]) <==> s.connsLock == Some(t))
    && (s.openLock.Some? ==> s.openLock.value in s.tasks)
    && (s.connsLock.Some? ==> s.connsLock.value in s.tasks)
  }

  /** A lock changes hands only between free and held by `t`, as `t`'s program counter says. */
  predicate Handed(before: Option<nat>, after: Option<nat>, t: nat, held: bool, holds: bool) {
    if held == holds then after == before
    else if holds then before.None? && after == Some(t)
    else after.None?
  }

  /** The steps of looking for a connection to reuse. */
  predicate Reusing(act: Act) { act.Enter? || act.Hit? || act.Miss? || act.Exhaust? || act.LockOpen? || act.Check? }

  lemma ReusingOpen(s: State, t: nat, act: Act)
    requires Acting(s, t) && ActEnabled(s, t, act) && Reusing(act)
    ensures var d := Acted(s, t, act);
            t in d.tasks && Handed(s.openLock, d.openLock, t, HoldsOpen(s.tasks[t]), HoldsOpen(d.tasks[t]))
  {
  }

  lemma DialingOpen(s: State, t: nat, act: Act)
    requires Acting(s, t) && ActEnabled(s, t, act) && !Reusing(act)
    ensures var d := Acted(s, t, act);
            t in d.tasks && Handed(s.openLock, d.openLock, t, HoldsOpen(s.tasks[t]), HoldsOpen(d.tasks[t]))
  {
  }

  lemma ActedOpen(s: State, t: nat, act: Act)
    requires Acting(s, t) && ActEnabled(s, t, act)
    ensures var d := Acted(s, t, act);
            t in d.tasks && Handed(s.openLock, d.openLock, t, HoldsOpen(s.tasks[t]), HoldsOpen(d.tasks[t]))
  {
    if Reusing(act) { ReusingOpen(s, t, act); } else { DialingOpen(s, t, act); }
  }

  lemma ActedConns(s: State, t: nat, act: Act)
    requires Acting(s, t) && ActEnabled(s, t, act)
    ensures var d := Acted(s, t, act);
            t in d.tasks && Handed(s.connsLock, d.connsLock, t, HoldsConns(s.tasks[t]), HoldsConns(d.tasks[t]))
  {
  }

  lemma LocksKept(s: State, d: State, t: nat)
    requires LocksOk(s) && t in d.tasks && d.tasks == s.tasks[t := d.tasks[t]]
    requires Handed(s.openLock, d.openLock, t, t in s.tasks && HoldsOpen(s.tasks[t]), HoldsOpen(d.tasks[t]))
    requires Handed(s.connsLock, d.connsLock, t, t in s.tasks && HoldsConns(s.tasks[t]), HoldsConns(d.tasks[t]))
    ensures LocksOk(d)
  {
  }

  lemma LocksPrune(s: State, t: nat, act: PruneAct)
    requires LocksOk(s) && t in s.tasks && s.tasks[t].Prune? && PruneEnabled(s, s.tasks[t].prune, act)
    ensures LocksOk(PruneStep(s, t, s.tasks[t].prune, act))
  {
    LocksKept(s, PruneStep(s, t, s.tasks[t].prune, act), t);
  }

  lemma LocksStep(s: State, e: Event)
    requires LocksOk(s) && Enabled(s, e)
    ensures LocksOk(Step(s, e))
  {
    match e
    case Do(t, act) =>
      ActedTasks(s, t, act);
      ActedOpen(s, t, act);
      ActedConns(s, t, act);
      LocksKept(s, Acted(s, t, act), t);
    case DoPrune(t, act) => LocksPrune(s, t, act);
    case Inside(_, _) =>
    case _ => LocksKept(s, Step(s, e), e.t);
  }
}
