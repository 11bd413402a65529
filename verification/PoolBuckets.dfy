/** Who is in the pool: privacy of fresh connections, the cap, and the proxy swap. */
module PoolBuckets {
  import opened Bytes
  import opened Inflight
  import Mux
  import MuxSafety
  import opened Pool
  import opened PoolShape

  // ---- A fresh connection is known to its opener only ----

  /** The connection a call has opened and not yet published. */
  function Fresh(task: Task): Option<nat> {
    if !task.Resolve? then None
    else match task.pc
         case Allocating(l) => Some(l)
         case WantPublish(l, _) => Some(l)
         case _ => None
  }

  /** The call has the connection on its list of connections taken from the pool. */
  predicate Lists(task: Task, l: nat) {
    match task
    case Resolve(_, _, _, pc) => pc.Probing? && l in pc.todo
    case Prune(pc) =>
      (match pc
       case Scanning(todo) => l in todo
       case Checking(m, todo) => l == m || l in todo
       case Retiring(m, todo) => l == m || l in todo
       case _ => false)
    case Swap(_, _) => false
  }

  ghost predicate BucketsOk(s: State) {
    forall server, l | l in Bucket(s, server) :: l in s.links && s.links[l].server == server
  }

  ghost predicate ListsOk(s: State) { forall t, l | t in s.tasks && Lists(s.tasks[t], l) :: l in s.links }

  ghost predicate PrivateTo(s: State, t: nat, l: nat)
    requires t in s.tasks && s.tasks[t].Resolve?
  {
    && l in s.links && s.links[l].server == s.tasks[t].server
    && s.links[l].opener == t && s.links[l].forced == s.tasks[t].forced
    && (forall server :: l !in Bucket(s, server))
    && (forall u | u in s.tasks :: !Lists(s.tasks[u], l))
  }

  ghost predicate Tidy(s: State) {
    && BucketsOk(s) && ListsOk(s)
    && (forall t | t in s.tasks && Fresh(s.tasks[t]).Some? :: PrivateTo(s, t, Fresh(s.tasks[t]).value))
  }

  /** Connections stay, with their target, proxy and origin. */
  ghost predicate LinksStay(s: State, d: State) {
    forall l | l in s.links :: l in d.links && d.links[l] == s.links[l].(conn := d.links[l].conn)
  }

  /** A task's list comes from its old list or from the pool. */
  ghost predicate ListChange(s: State, d: State, t: nat)
    requires t in d.tasks
  {
    forall l | Lists(d.tasks[t], l) :: (t in s.tasks && Lists(s.tasks[t], l)) || exists server :: l in Bucket(s, server)
  }

  lemma TidyShrunk(s: State, d: State, t: nat)
    requires Tidy(s) && LinksStay(s, d) && Shrunk(s, d)
    requires t in d.tasks && d.tasks == s.tasks[t := d.tasks[t]] && ListChange(s, d, t)
    requires Fresh(d.tasks[t]).Some? ==>
               || (&& t in s.tasks && Fresh(s.tasks[t]) == Fresh(d.tasks[t])
                   && s.tasks[t].server == d.tasks[t].server && s.tasks[t].forced == d.tasks[t].forced)
               || (&& Fresh(d.tasks[t]).value !in s.links && Fresh(d.tasks[t]).value in d.links
                   && d.links[Fresh(d.tasks[t]).value].server == d.tasks[t].server
                   && d.links[Fresh(d.tasks[t]).value].opener == t
                   && d.links[Fresh(d.tasks[t]).value].forced == d.tasks[t].forced)
    ensures Tidy(d)
  {
    forall u | u in d.tasks && Fresh(d.tasks[u]).Some? ensures PrivateTo(d, u, Fresh(d.tasks[u]).value) {
      var l := Fresh(d.tasks[u]).value;
      if l in s.links { assert PrivateTo(s, u, l); }
    }
  }

  lemma ActedLists(s: State, t: nat, act: Act)
    requires Acting(s, t) && ActEnabled(s, t, act)
    ensures t in Acted(s, t, act).tasks && ListChange(s, Acted(s, t, act), t)
  {
    if act.Enter? {
      var d := Acted(s, t, act);
      forall l | Lists(d.tasks[t], l) ensures l in Bucket(s, s.tasks[t].server) { }
    }
  }

  /** A task's fresh connection is new, or is the one it had. */
  ghost predicate FreshChange(s: State, d: State, t: nat)
    requires Acting(s, t) && Acting(d, t)
  {
    Fresh(d.tasks[t]).Some? ==>
      || (Fresh(s.tasks[t]) == Fresh(d.tasks[t]) && d.tasks[t].forced == s.tasks[t].forced)
      || (&& s.tasks[t].pc.Dialing? && d.tasks[t].forced == s.tasks[t].forced
          && Fresh(d.tasks[t]).value !in s.links && Fresh(d.tasks[t]).value in d.links
          && d.links[Fresh(d.tasks[t]).value] ==
               Link(s.tasks[t].server, s.tasks[t].pc.version, t, s.tasks[t].forced, Mux.Opened))
  }

  lemma ReusingFresh(s: State, t: nat, act: Act)
    requires Acting(s, t) && ActEnabled(s, t, act) && Reusing(act)
    ensures Acting(Acted(s, t, act), t) && Fresh(Acted(s, t, act).tasks[t]).None?
  {
  }

  lemma DialingFresh(s: State, t: nat, act: Act)
    requires Acting(s, t) && ActEnabled(s, t, act) && !Reusing(act)
    ensures Acting(Acted(s, t, act), t) && FreshChange(s, Acted(s, t, act), t)
    ensures act.Publish? ==> Fresh(s.tasks[t]) == Some(s.tasks[t].pc.link) && Fresh(Acted(s, t, act).tasks[t]).None?
  {
  }

  lemma ActedFresh(s: State, t: nat, act: Act)
    requires Acting(s, t) && ActEnabled(s, t, act)
    ensures Acting(Acted(s, t, act), t) && FreshChange(s, Acted(s, t, act), t)
    ensures act.Publish? ==> Fresh(s.tasks[t]) == Some(s.tasks[t].pc.link) && Fresh(Acted(s, t, act).tasks[t]).None?
  {
    if Reusing(act) { ReusingFresh(s, t, act); } else { DialingFresh(s, t, act); }
  }

  lemma ChangedLinksStay(s: State, d: State, t: nat, act: Act)
    requires Acting(s, t) && ActEnabled(s, t, act) && LinksChange(s, d, t, act)
    ensures LinksStay(s, d)
  {
  }

  /** The opener is the only one with a fresh connection, by open_lock. */
  lemma TidyPublish(s: State, d: State, t: nat)
    requires Tidy(s) && LocksOk(s) && OwnTask(s, d, t) && d.links == s.links && ListChange(s, d, t)
    requires Fresh(s.tasks[t]).Some? && Fresh(d.tasks[t]).None?
    requires d.buckets == s.buckets[s.tasks[t].server := Bucket(s, s.tasks[t].server) + [Fresh(s.tasks[t]).value]]
    ensures Tidy(d)
  {
    var l := Fresh(s.tasks[t]).value;
    assert PrivateTo(s, t, l);
    assert HoldsOpen(s.tasks[t]);
    forall u | u in d.tasks ensures Fresh(d.tasks[u]).None? {
      if u != t { assert !HoldsOpen(s.tasks[u]); }
    }
    forall server, m | m in Bucket(d, server) ensures m in d.links && d.links[m].server == server {
      assert m in Bucket(s, server) || (m == l && server == s.tasks[t].server);
    }
  }

  lemma TidyActed(s: State, t: nat, act: Act)
    requires Tidy(s) && LocksOk(s) && Acting(s, t) && ActEnabled(s, t, act)
    ensures Tidy(Acted(s, t, act))
  {
    var d := Acted(s, t, act);
    ActedTasks(s, t, act);
    ActedLinks(s, t, act);
    ChangedLinksStay(s, d, t, act);
    ActedBuckets(s, t, act);
    ActedLists(s, t, act);
    ActedFresh(s, t, act);
    if act.Publish? { TidyPublish(s, d, t); } else { TidyShrunk(s, d, t); }
  }

  lemma PruneLists(s: State, t: nat, act: PruneAct)
    requires t in s.tasks && s.tasks[t].Prune? && PruneEnabled(s, s.tasks[t].prune, act)
    ensures var d := PruneStep(s, t, s.tasks[t].prune, act); t in d.tasks && ListChange(s, d, t)
  {
    var d := PruneStep(s, t, s.tasks[t].prune, act);
    forall l | Lists(d.tasks[t], l) ensures Lists(s.tasks[t], l) || exists server :: l in Bucket(s, server) {
      if act.EnterPrune? { assert l in Bucket(s, s.links[l].server); }
    }
  }

  lemma TidyPrune(s: State, t: nat, act: PruneAct)
    requires Tidy(s) && t in s.tasks && s.tasks[t].Prune? && PruneEnabled(s, s.tasks[t].prune, act)
    ensures Tidy(PruneStep(s, t, s.tasks[t].prune, act))
  {
    var d := PruneStep(s, t, s.tasks[t].prune, act);
    PruneShape(s, t, s.tasks[t].prune, act);
    PruneLists(s, t, act);
    assert LinksStay(s, d);
    TidyShrunk(s, d, t);
  }

  lemma TidyInside(s: State, l: nat, e: Mux.Event)
    requires Tidy(s) && l in s.links && Mux.Enabled(s.links[l].conn, e)
    ensures Tidy(OnLink(s, l, e))
  {
    var d := OnLink(s, l, e);
    assert forall server :: Bucket(d, server) == Bucket(s, server);
    forall t | t in d.tasks && Fresh(d.tasks[t]).Some? ensures PrivateTo(d, t, Fresh(d.tasks[t]).value) {
      assert PrivateTo(s, t, Fresh(s.tasks[t]).value);
    }
  }

  lemma TidySwap(s: State, t: nat)
    requires Tidy(s) && Enabled(s, EndSwap(t))
    ensures Tidy(Step(s, EndSwap(t)))
  {
    TidyShrunk(s, Step(s, EndSwap(t)), t);
  }

  lemma TidyStep(s: State, e: Event)
    requires Tidy(s) && LocksOk(s) && Enabled(s, e)
    ensures Tidy(Step(s, e))
  {
    match e
    case Do(t, act) => TidyActed(s, t, act);
    case DoPrune(t, act) => TidyPrune(s, t, act);
    case Inside(l, me) => TidyInside(s, l, me);
    case EndSwap(t) => TidySwap(s, t);
    case _ => TidyShrunk(s, Step(s, e), e.t);
  }

  // ---- A fresh connection has no attempts before its opener's ----

  ghost predicate Unused(s: State) {
    forall t | Acting(s, t) && s.tasks[t].pc.Allocating? ::
      s.tasks[t].pc.link in s.links && s.links[s.tasks[t].pc.link].conn.ids.attempts == map[]
  }

  /** The opener is the only one with a fresh connection, and nobody else has it on a list. */
  lemma UnusedChange(s: State, d: State, t: nat, act: Act)
    requires Unused(s) && Tidy(s) && LocksOk(s) && Acting(s, t) && ActEnabled(s, t, act)
    requires OwnTask(s, d, t) && LinksChange(s, d, t, act)
    requires d.tasks[t].pc.Allocating? ==> act.DialOk? && d.tasks[t].pc.link == act.link
    ensures Unused(d)
  {
    forall u | Acting(d, u) && d.tasks[u].pc.Allocating?
      ensures d.tasks[u].pc.link in d.links && d.links[d.tasks[u].pc.link].conn.ids.attempts == map[]
    {
      if u != t {
        assert HoldsOpen(s.tasks[u]) && !HoldsOpen(s.tasks[t]);
        assert PrivateTo(s, u, Fresh(s.tasks[u]).value);
        assert act.Hit? ==> Lists(s.tasks[t], s.tasks[t].pc.todo[0]);
      }
    }
  }

  lemma ActedAllocating(s: State, t: nat, act: Act)
    requires Acting(s, t) && ActEnabled(s, t, act)
    ensures var d := Acted(s, t, act);
            Acting(d, t) && (d.tasks[t].pc.Allocating? ==> act.DialOk? && d.tasks[t].pc.link == act.link)
  {
  }

  lemma UnusedActed(s: State, t: nat, act: Act)
    requires Unused(s) && Tidy(s) && LocksOk(s) && Acting(s, t) && ActEnabled(s, t, act)
    ensures Unused(Acted(s, t, act))
  {
    ActedTasks(s, t, act);
    ActedLinks(s, t, act);
    ActedAllocating(s, t, act);
    UnusedChange(s, Acted(s, t, act), t, act);
  }

  lemma UnusedInside(s: State, l: nat, e: Mux.Event)
    requires Unused(s) && l in s.links && Mux.Enabled(s.links[l].conn, e) && !e.Allocate?
    ensures Unused(OnLink(s, l, e))
  {
    MuxSafety.SettledStep(s.links[l].conn, e);
  }

  lemma UnusedPrune(s: State, t: nat, act: PruneAct)
    requires Unused(s) && t in s.tasks && s.tasks[t].Prune? && PruneEnabled(s, s.tasks[t].prune, act)
    ensures Unused(PruneStep(s, t, s.tasks[t].prune, act))
  {
    PruneShape(s, t, s.tasks[t].prune, act);
  }

  lemma UnusedStep(s: State, e: Event)
    requires Unused(s) && Tidy(s) && LocksOk(s) && Enabled(s, e)
    ensures Unused(Step(s, e))
  {
    match e
    case Do(t, act) => UnusedActed(s, t, act);
    case DoPrune(t, act) => UnusedPrune(s, t, act);
    case Inside(l, me) => UnusedInside(s, l, me);
    case _ =>
  }

  // ---- The cap ----

  /** A first-round opener that has passed the cap check. */
  predicate Admitted(task: Task) {
    && task.Resolve? && !task.forced
    && (task.pc.Loading? || task.pc.Dialing? || task.pc.Allocating? || task.pc.WantPublish?)
  }

  /** The connections of the bucket that come from a first round. */
  ghost function Plain(s: State, server: Server): set<nat> {
    set l | l in Bucket(s, server) && l in s.links && !s.links[l].forced
  }

  /** Those that come from a forced open. */
  ghost function ForcedIn(s: State, server: Server): set<nat> {
    set l | l in Bucket(s, server) && l in s.links && s.links[l].forced
  }

  ghost predicate Capped(s: State) {
    && (forall server :: Distinct(Bucket(s, server)))
    && (forall server :: |Plain(s, server)| <= MAX_CONNS_PER_TARGET)
    && (forall t | t in s.tasks && Admitted(s.tasks[t]) :: |Bucket(s, s.tasks[t].server)| < MAX_CONNS_PER_TARGET)
  }

  lemma ActedAdmitted(s: State, t: nat, act: Act)
    requires Acting(s, t) && ActEnabled(s, t, act)
    ensures var d := Acted(s, t, act);
            && Acting(d, t)
            && (Admitted(d.tasks[t]) ==> Admitted(s.tasks[t]) || |Bucket(d, s.tasks[t].server)| < MAX_CONNS_PER_TARGET)
            && (act.Publish? ==>
                  (s.tasks[t].forced || Admitted(s.tasks[t])) && HoldsOpen(s.tasks[t]) && !Admitted(d.tasks[t]))
  {
  }

  lemma CappedShrunk(s: State, d: State, t: nat)
    requires Capped(s) && Tidy(s) && Shrunk(s, d) && LinksStay(s, d)
    requires t in d.tasks && d.tasks == s.tasks[t := d.tasks[t]]
    requires Admitted(d.tasks[t]) ==>
               || (t in s.tasks && Admitted(s.tasks[t]) && d.tasks[t].server == s.tasks[t].server)
               || |Bucket(d, d.tasks[t].server)| < MAX_CONNS_PER_TARGET
    ensures Capped(d)
  {
    PlainShrunk(s, d);
    forall server ensures Distinct(Bucket(d, server)) { assert Distinct(Bucket(s, server)); }
  }

  lemma PlainShrunk(s: State, d: State)
    requires Capped(s) && BucketsOk(s) && LinksStay(s, d)
    requires forall server, l | l in Bucket(d, server) :: l in Bucket(s, server)
    ensures forall server :: |Plain(d, server)| <= MAX_CONNS_PER_TARGET
  {
    forall server ensures |Plain(d, server)| <= MAX_CONNS_PER_TARGET {
      assert Plain(d, server) <= Plain(s, server);
      CardinalityMonotone(Plain(d, server), Plain(s, server));
    }
  }

  ghost function Elements(bucket: seq<nat>): set<nat> { set l | l in bucket }

  /** A sequence has at least as many places as elements, and as many if they are distinct. */
  lemma {:induction false} PlacesAndElements(bucket: seq<nat>)
    ensures |Elements(bucket)| <= |bucket|
    ensures Distinct(bucket) ==> |Elements(bucket)| == |bucket|
  {
    if bucket == [] {
      assert Elements(bucket) == {};
    } else {
      PlacesAndElements(bucket[1..]);
      assert Elements(bucket) == {bucket[0]} + Elements(bucket[1..]);
    }
  }

  lemma {:induction false} DistinctAppend(bucket: seq<nat>, l: nat)
    requires Distinct(bucket) && l !in bucket
    ensures Distinct(bucket + [l])
  {
    if bucket != [] {
      DistinctAppend(bucket[1..], l);
      assert (bucket + [l])[1..] == bucket[1..] + [l];
    } else {
      assert bucket + [l] == [l] && [l][1..] == [];
    }
  }

  lemma PlainAdmitted(s: State, server: Server)
    requires |Bucket(s, server)| < MAX_CONNS_PER_TARGET
    ensures |Plain(s, server)| < MAX_CONNS_PER_TARGET
  {
    PlacesAndElements(Bucket(s, server));
    CardinalityMonotone(Plain(s, server), Elements(Bucket(s, server)));
  }

  lemma PlainPublish(s: State, d: State, server: Server, l: nat)
    requires l in s.links && d.links == s.links && d.buckets == s.buckets[server := Bucket(s, server) + [l]]
    requires l !in Bucket(s, server) && Distinct(Bucket(s, server))
    ensures Distinct(Bucket(d, server)) && Plain(d, server) == Plain(s, server) + if s.links[l].forced then {} else {l}
    ensures forall other | other != server ::
              Bucket(d, other) == Bucket(s, other) && Plain(d, other) == Plain(s, other)
  {
    DistinctAppend(Bucket(s, server), l);
  }

  lemma CappedPublish(s: State, d: State, t: nat)
    requires Capped(s) && Tidy(s) && LocksOk(s) && OwnTask(s, d, t) && d.links == s.links
    requires HoldsOpen(s.tasks[t]) && !Admitted(d.tasks[t])
    requires s.tasks[t].pc.WantPublish? && (s.tasks[t].forced || Admitted(s.tasks[t]))
    requires d.buckets == s.buckets[s.tasks[t].server := Bucket(s, s.tasks[t].server) + [s.tasks[t].pc.link]]
    ensures Capped(d)
  {
    var server, l := s.tasks[t].server, s.tasks[t].pc.link;
    assert Fresh(s.tasks[t]) == Some(l) && PrivateTo(s, t, l);
    assert Distinct(Bucket(s, server)) && |Plain(s, server)| <= MAX_CONNS_PER_TARGET;
    PlainPublish(s, d, server, l);
    if !s.tasks[t].forced { PlainAdmitted(s, server); }
    forall u | u in d.tasks ensures !Admitted(d.tasks[u]) {
      if u != t { assert !HoldsOpen(s.tasks[u]); }
    }
  }

  lemma CappedActed(s: State, t: nat, act: Act)
    requires Capped(s) && Tidy(s) && LocksOk(s) && Acting(s, t) && ActEnabled(s, t, act)
    ensures Capped(Acted(s, t, act))
  {
    var d := Acted(s, t, act);
    ActedTasks(s, t, act);
    ActedLinks(s, t, act);
    ChangedLinksStay(s, d, t, act);
    ActedBuckets(s, t, act);
    ActedAdmitted(s, t, act);
    if act.Publish? { CappedPublish(s, d, t); } else { CappedShrunk(s, d, t); }
  }

  lemma CappedPrune(s: State, t: nat, act: PruneAct)
    requires Capped(s) && Tidy(s) && t in s.tasks && s.tasks[t].Prune? && PruneEnabled(s, s.tasks[t].prune, act)
    ensures Capped(PruneStep(s, t, s.tasks[t].prune, act))
  {
    var d := PruneStep(s, t, s.tasks[t].prune, act);
    PruneShape(s, t, s.tasks[t].prune, act);
    assert LinksStay(s, d);
    CappedShrunk(s, d, t);
  }

  lemma CappedInside(s: State, l: nat, e: Mux.Event)
    requires Capped(s) && l in s.links && Mux.Enabled(s.links[l].conn, e)
    ensures Capped(OnLink(s, l, e))
  {
    var d := OnLink(s, l, e);
    forall server ensures Bucket(d, server) == Bucket(s, server) && Plain(d, server) == Plain(s, server) { }
  }

  lemma CappedStep(s: State, e: Event)
    requires Capped(s) && Tidy(s) && LocksOk(s) && Enabled(s, e)
    ensures Capped(Step(s, e))
  {
    match e
    case Do(t, act) => CappedActed(s, t, act);
    case DoPrune(t, act) => CappedPrune(s, t, act);
    case Inside(l, me) => CappedInside(s, l, me);
    case _ => CappedShrunk(s, Step(s, e), e.t);
  }

  /** The bucket is made of first-round connections and forced ones. */
  lemma BucketParts(s: State, server: Server)
    requires Capped(s) && BucketsOk(s)
    ensures |Bucket(s, server)| <= MAX_CONNS_PER_TARGET + |ForcedIn(s, server)|
  {
    PlacesAndElements(Bucket(s, server));
    assert Distinct(Bucket(s, server)) && |Plain(s, server)| <= MAX_CONNS_PER_TARGET;
    assert Elements(Bucket(s, server)) == Plain(s, server) + ForcedIn(s, server);
  }

  // ---- The proxy swap ----

  /** The connection goes through a proxy that a completed `set_proxy` has replaced. */
  predicate Stale(s: State, l: nat) { l in s.links && s.links[l].version < s.cleared }

  /** An open under way through such a proxy. */
  predicate OpeningStale(s: State, task: Task) {
    && task.Resolve?
    && (|| (task.pc.Dialing? && task.pc.version < s.cleared)
        || (Fresh(task).Some? && Stale(s, Fresh(task).value)))
  }

  /** At most one stale connection is pooled, and none while a stale open is under way. */
  ghost predicate OneStale(s: State) {
    && s.cleared <= s.version
    && (forall t | t in s.tasks && s.tasks[t].Swap? :: s.tasks[t].version <= s.version)
    && (forall l, m | Pooled(s, l) && Pooled(s, m) && Stale(s, l) && Stale(s, m) :: l == m)
    && (forall t, l | t in s.tasks && OpeningStale(s, s.tasks[t]) && Pooled(s, l) :: !Stale(s, l))
  }

  lemma PooledShrunk(s: State, d: State)
    requires BucketsOk(s) && LinksStay(s, d) && Shrunk(s, d)
    ensures forall l | Pooled(d, l) :: Pooled(s, l)
  {
  }

  /** An open under way through a stale proxy was one before. */
  lemma OpeningStayed(s: State, d: State, u: nat)
    requires Tidy(s) && LinksStay(s, d) && d.cleared == s.cleared
    requires u in s.tasks && u in d.tasks && d.tasks[u] == s.tasks[u] && OpeningStale(d, d.tasks[u])
    ensures OpeningStale(s, s.tasks[u])
  {
    if Fresh(s.tasks[u]).Some? { assert PrivateTo(s, u, Fresh(s.tasks[u]).value); }
  }

  lemma OneStaleShrunk(s: State, d: State, t: nat)
    requires OneStale(s) && Tidy(s) && LinksStay(s, d) && Shrunk(s, d)
    requires t in d.tasks && d.tasks == s.tasks[t := d.tasks[t]]
    requires d.cleared == s.cleared && s.version <= d.version
    requires d.tasks[t].Swap? ==> d.tasks[t].version <= d.version
    requires OpeningStale(d, d.tasks[t]) ==> t in s.tasks && OpeningStale(s, s.tasks[t])
    ensures OneStale(d)
  {
    PooledShrunk(s, d);
    StalePooled(s, d);
    forall u, l | u in d.tasks && OpeningStale(d, d.tasks[u]) && Pooled(d, l) ensures !Stale(d, l) {
      if u != t { OpeningStayed(s, d, u); }
      assert OpeningStale(s, s.tasks[u]) && Pooled(s, l);
    }
  }

  lemma StalePooled(s: State, d: State)
    requires LinksStay(s, d) && d.cleared == s.cleared && forall l | Pooled(d, l) :: Pooled(s, l)
    ensures forall l | Pooled(d, l) && Stale(d, l) :: Pooled(s, l) && Stale(s, l)
  {
  }

  lemma ActedDialing(s: State, t: nat, act: Act)
    requires Acting(s, t) && ActEnabled(s, t, act)
    ensures var d := Acted(s, t, act);
            Acting(d, t) && (d.tasks[t].pc.Dialing? ==> d.tasks[t].pc.version == s.version)
  {
  }

  lemma OpeningActed(s: State, t: nat, act: Act)
    requires OneStale(s) && Tidy(s) && Acting(s, t) && ActEnabled(s, t, act)
    ensures var d := Acted(s, t, act);
            Acting(d, t) && (OpeningStale(d, d.tasks[t]) ==> OpeningStale(s, s.tasks[t]))
  {
    var d := Acted(s, t, act);
    ActedTasks(s, t, act);
    ActedLinks(s, t, act);
    ChangedLinksStay(s, d, t, act);
    ActedFresh(s, t, act);
    ActedDialing(s, t, act);
    if Fresh(s.tasks[t]).Some? { assert PrivateTo(s, t, Fresh(s.tasks[t]).value); }
  }

  lemma OneStalePublish(s: State, d: State, t: nat)
    requires OneStale(s) && Tidy(s) && LocksOk(s) && OwnTask(s, d, t) && d.links == s.links
    requires Fresh(s.tasks[t]).Some? && !HoldsOpen(d.tasks[t])
    requires d.buckets == s.buckets[s.tasks[t].server := Bucket(s, s.tasks[t].server) + [Fresh(s.tasks[t]).value]]
    ensures OneStale(d)
  {
    var l := Fresh(s.tasks[t]).value;
    assert HoldsOpen(s.tasks[t]);
    forall u | u in d.tasks ensures !OpeningStale(d, d.tasks[u]) {
      if u != t { assert !HoldsOpen(s.tasks[u]); }
    }
    PooledPublish(s, d, s.tasks[t].server, l);
    forall m, n | Pooled(d, m) && Pooled(d, n) && Stale(d, m) && Stale(d, n) ensures m == n {
      if Stale(s, l) { assert OpeningStale(s, s.tasks[t]); }
    }
  }

  lemma PooledPublish(s: State, d: State, server: Server, l: nat)
    requires d.links == s.links && d.buckets == s.buckets[server := Bucket(s, server) + [l]]
    ensures forall m | Pooled(d, m) :: Pooled(s, m) || m == l
  {
  }

  lemma OneStaleActed(s: State, t: nat, act: Act)
    requires OneStale(s) && Tidy(s) && LocksOk(s) && Acting(s, t) && ActEnabled(s, t, act)
    ensures OneStale(Acted(s, t, act))
  {
    var d := Acted(s, t, act);
    ActedTasks(s, t, act);
    ActedLinks(s, t, act);
    ChangedLinksStay(s, d, t, act);
    ActedBuckets(s, t, act);
    ActedFresh(s, t, act);
    if act.Publish? {
      ActedOpen(s, t, act);
      OneStalePublish(s, d, t);
    } else {
      OpeningActed(s, t, act);
      OneStaleShrunk(s, d, t);
    }
  }

  lemma OneStalePrune(s: State, t: nat, act: PruneAct)
    requires OneStale(s) && Tidy(s) && t in s.tasks && s.tasks[t].Prune? && PruneEnabled(s, s.tasks[t].prune, act)
    ensures OneStale(PruneStep(s, t, s.tasks[t].prune, act))
  {
    var d := PruneStep(s, t, s.tasks[t].prune, act);
    PruneShape(s, t, s.tasks[t].prune, act);
    assert LinksStay(s, d);
    OneStaleShrunk(s, d, t);
  }

  lemma OneStaleInside(s: State, l: nat, e: Mux.Event)
    requires OneStale(s) && l in s.links && Mux.Enabled(s.links[l].conn, e)
    ensures OneStale(OnLink(s, l, e))
  {
    var d := OnLink(s, l, e);
    assert forall m :: (Pooled(d, m) <==> Pooled(s, m)) && (Stale(d, m) <==> Stale(s, m));
  }

  lemma OneStaleStep(s: State, e: Event)
    requires OneStale(s) && Tidy(s) && LocksOk(s) && Enabled(s, e)
    ensures OneStale(Step(s, e))
  {
    match e
    case Do(t, act) => OneStaleActed(s, t, act);
    case DoPrune(t, act) => OneStalePrune(s, t, act);
    case Inside(l, me) => OneStaleInside(s, l, me);
    case EndSwap(_) =>
    case _ => OneStaleShrunk(s, Step(s, e), e.t);
  }
}
