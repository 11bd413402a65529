/** `prune` never retires a connection somebody waits on. */
module PoolPrune {
  import opened Bytes
  import opened Inflight
  import Mux
  import MuxSafety
  import opened Pool
  import opened PoolShape
  import opened PoolBuckets
  import opened PoolReplies

  predicate IsRetiring(task: Task) { task.Prune? && task.prune.Retiring? }

  /** Between the emptiness check and the retirement nobody starts to wait. */
  ghost predicate RetireSafe(s: State) {
    forall t | t in s.tasks && IsRetiring(s.tasks[t]) ::
      s.tasks[t].prune.link in s.links && MuxSafety.Nobody(s.links[s.tasks[t].prune.link].conn)
  }

  lemma RetireInside(s: State, l: nat, e: Mux.Event)
    requires RetireSafe(s) && l in s.links && Mux.Enabled(s.links[l].conn, e) && !e.Allocate?
    ensures RetireSafe(OnLink(s, l, e))
  {
    if MuxSafety.Nobody(s.links[l].conn) { MuxSafety.NobodyStep(s.links[l].conn, e); }
  }

  /** Allocation on a pooled connection needs conns, which the pruner holds; the
      only other allocation is on a connection nobody but its opener knows. */
  lemma RetireChange(s: State, d: State, t: nat, act: Act)
    requires RetireSafe(s) && LocksOk(s) && Tidy(s) && Acting(s, t) && ActEnabled(s, t, act)
    requires OwnTask(s, d, t) && LinksChange(s, d, t, act)
    ensures RetireSafe(d)
  {
    forall u | u in d.tasks && IsRetiring(d.tasks[u])
      ensures d.tasks[u].prune.link in d.links && MuxSafety.Nobody(d.links[d.tasks[u].prune.link].conn)
    {
      assert u != t && HoldsConns(s.tasks[u]);
      if act.First? {
        assert Fresh(s.tasks[t]) == Some(s.tasks[t].pc.link);
        assert PrivateTo(s, t, s.tasks[t].pc.link);
        assert Lists(s.tasks[u], s.tasks[u].prune.link);
      }
      assert !HoldsConns(s.tasks[t]);
    }
  }

  lemma RetireActed(s: State, t: nat, act: Act)
    requires RetireSafe(s) && LocksOk(s) && Tidy(s) && Acting(s, t) && ActEnabled(s, t, act)
    ensures RetireSafe(Acted(s, t, act))
  {
    ActedTasks(s, t, act);
    ActedLinks(s, t, act);
    RetireChange(s, Acted(s, t, act), t, act);
  }

  /** An empty inflight map means nobody waits. */
  lemma EmptyIsQuiet(c: Mux.Conn)
    requires ConnGood(c, Keeping) && c.ids.inflight == map[]
    ensures MuxSafety.Nobody(c)
  {
    if !c.reader.Gone? { MuxSafety.UnansweredInMap(c); }
  }

  lemma RetireVerify(s: State, t: nat, idle: bool)
    requires RetireSafe(s) && Good(s, Keeping)
    requires t in s.tasks && s.tasks[t].Prune? && PruneEnabled(s, s.tasks[t].prune, Verify(idle))
    ensures RetireSafe(PruneStep(s, t, s.tasks[t].prune, Verify(idle)))
  {
    var l := s.tasks[t].prune.link;
    PruneShape(s, t, s.tasks[t].prune, Verify(idle));
    assert ConnGood(s.links[l].conn, Keeping);
    if s.links[l].conn.ids.inflight == map[] { EmptyIsQuiet(s.links[l].conn); }
  }

  lemma RetireKill(s: State, t: nat)
    requires RetireSafe(s) && t in s.tasks && s.tasks[t].Prune? && PruneEnabled(s, s.tasks[t].prune, Retire)
    ensures RetireSafe(PruneStep(s, t, s.tasks[t].prune, Retire))
  {
    var l := s.tasks[t].prune.link;
    PruneShape(s, t, s.tasks[t].prune, Retire);
    if MuxSafety.Nobody(s.links[l].conn) { MuxSafety.NobodyStep(s.links[l].conn, Mux.Flag(Mux.Kill)); }
  }

  lemma RetirePrune(s: State, t: nat, act: PruneAct)
    requires RetireSafe(s) && Good(s, Keeping)
    requires t in s.tasks && s.tasks[t].Prune? && PruneEnabled(s, s.tasks[t].prune, act)
    ensures RetireSafe(PruneStep(s, t, s.tasks[t].prune, act))
  {
    if act.Verify? {
      RetireVerify(s, t, act.idle);
    } else if act.Retire? {
      RetireKill(s, t);
    } else {
      PruneShape(s, t, s.tasks[t].prune, act);
    }
  }

  lemma RetireSwap(s: State, t: nat)
    requires RetireSafe(s) && LocksOk(s) && Enabled(s, EndSwap(t))
    ensures RetireSafe(Step(s, EndSwap(t)))
  {
    forall u | u in s.tasks ensures !IsRetiring(s.tasks[u]) { assert !HoldsConns(s.tasks[u]); }
  }

  lemma RetireStep(s: State, e: Event)
    requires RetireSafe(s) && LocksOk(s) && Tidy(s) && Good(s, Keeping) && Enabled(s, e)
    ensures RetireSafe(Step(s, e))
  {
    match e
    case Do(t, act) => RetireActed(s, t, act);
    case DoPrune(t, act) => RetirePrune(s, t, act);
    case Inside(l, me) => RetireInside(s, l, me);
    case EndSwap(t) => RetireSwap(s, t);
    case _ =>
  }
}
