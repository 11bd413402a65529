/** Which connections a call uses, and that no live connection is lost. */
module PoolTargets {
  import opened Bytes
  import opened Inflight
  import Mux
  import MuxSafety
  import opened Pool
  import opened PoolShape
  import opened PoolBuckets

  // ---- Connections for the call's own target ----

  /** The connection a call has opened, runs its attempt on, or was answered on. */
  function On(task: Task): Option<nat> {
    if !task.Resolve? then None
    else match task.pc
         case Allocating(l) => Some(l)
         case WantPublish(l, _) => Some(l)
         case Running(l, _) => Some(l)
         case Answered(l, _, _) => Some(l)
         case _ => None
  }

  /** The call looks for a connection to reuse, or for room for a new one. */
  predicate Looking(task: Task) {
    task.Resolve? && (task.pc.WantConns? || task.pc.Probing? || task.pc.WantCheck?)
  }

  /** All connections a call tries or uses are to its own target; the second round does not
      look for one to reuse, and the one it uses is one it has opened itself. */
  ghost predicate TargetOk(s: State, t: nat)
    requires Acting(s, t)
  {
    var task := s.tasks[t];
    && (forall l | Lists(task, l) :: l in s.links && s.links[l].server == task.server)
    && (On(task).Some? ==>
          && On(task).value in s.links && s.links[On(task).value].server == task.server
          && (task.forced ==> s.links[On(task).value].opener == t && s.links[On(task).value].forced))
    && (task.forced ==> !Looking(task))
  }

  ghost predicate Targeted(s: State) { forall t | Acting(s, t) :: TargetOk(s, t) }

  /** What a call is on after a step: what it was on, a connection of its list, or a new one. */
  ghost predicate OnChange(s: State, d: State, t: nat)
    requires Acting(s, t) && Acting(d, t)
  {
    On(d.tasks[t]).Some? ==>
      var l := On(d.tasks[t]).value;
      && d.tasks[t].forced == s.tasks[t].forced
      && (|| On(s.tasks[t]) == Some(l)
          || (s.tasks[t].pc.Probing? && Lists(s.tasks[t], l))
          || (&& l in d.links && d.links[l].server == s.tasks[t].server
              && d.links[l].opener == t && d.links[l].forced == s.tasks[t].forced))
  }

  lemma ReusingOn(s: State, t: nat, act: Act)
    requires Acting(s, t) && ActEnabled(s, t, act) && Reusing(act)
    ensures Acting(Acted(s, t, act), t) && OnChange(s, Acted(s, t, act), t)
  {
  }

  lemma DialingOn(s: State, t: nat, act: Act)
    requires Acting(s, t) && ActEnabled(s, t, act) && !Reusing(act)
    ensures Acting(Acted(s, t, act), t) && OnChange(s, Acted(s, t, act), t)
  {
  }

  /** A call's list comes from its old one or from the bucket of its own target. */
  lemma ActedOwnList(s: State, t: nat, act: Act)
    requires Acting(s, t) && ActEnabled(s, t, act)
    ensures var d := Acted(s, t, act);
            && Acting(d, t)
            && forall l | Lists(d.tasks[t], l) :: Lists(s.tasks[t], l) || l in Bucket(s, s.tasks[t].server)
  {
  }

  lemma ActedLooking(s: State, t: nat, act: Act)
    requires Acting(s, t) && ActEnabled(s, t, act)
    ensures var d := Acted(s, t, act);
            Acting(d, t) && (d.tasks[t].forced && Looking(d.tasks[t]) ==> s.tasks[t].forced && Looking(s.tasks[t]))
  {
  }

  lemma TargetChange(s: State, d: State, t: nat)
    requires OwnTask(s, d, t) && TargetOk(s, t) && BucketsOk(s) && LinksStay(s, d) && OnChange(s, d, t)
    requires forall l | Lists(d.tasks[t], l) :: Lists(s.tasks[t], l) || l in Bucket(s, s.tasks[t].server)
    requires d.tasks[t].forced && Looking(d.tasks[t]) ==> s.tasks[t].forced && Looking(s.tasks[t])
    ensures TargetOk(d, t)
  {
  }

  lemma TargetActed(s: State, t: nat, act: Act)
    requires Targeted(s) && BucketsOk(s) && Acting(s, t) && ActEnabled(s, t, act)
    ensures TargetOk(Acted(s, t, act), t)
  {
    var d := Acted(s, t, act);
    ActedTasks(s, t, act);
    ActedLinks(s, t, act);
    ChangedLinksStay(s, d, t, act);
    if Reusing(act) { ReusingOn(s, t, act); } else { DialingOn(s, t, act); }
    ActedOwnList(s, t, act);
    ActedLooking(s, t, act);
    TargetChange(s, d, t);
  }

  lemma TargetOthers(s: State, d: State, t: nat)
    requires Targeted(s) && LinksStay(s, d) && t in d.tasks && d.tasks == s.tasks[t := d.tasks[t]]
    requires Acting(d, t) ==> TargetOk(d, t)
    ensures Targeted(d)
  {
    forall u | Acting(d, u) ensures TargetOk(d, u) {
      if u != t { assert TargetOk(s, u); }
    }
  }

  lemma TargetInside(s: State, l: nat, e: Mux.Event)
    requires Targeted(s) && l in s.links && Mux.Enabled(s.links[l].conn, e)
    ensures Targeted(OnLink(s, l, e))
  {
    forall u | Acting(s, u) ensures TargetOk(OnLink(s, l, e), u) { assert TargetOk(s, u); }
  }

  lemma PruneStays(s: State, t: nat, pc: PrunePc, act: PruneAct)
    requires PruneEnabled(s, pc, act)
    ensures LinksStay(s, PruneStep(s, t, pc, act))
  {
    PruneShape(s, t, pc, act);
  }

  lemma TargetStep(s: State, e: Event)
    requires Targeted(s) && BucketsOk(s) && Enabled(s, e)
    ensures Targeted(Step(s, e))
  {
    match e
    case Do(t, act) =>
      ActedTasks(s, t, act);
      ActedLinks(s, t, act);
      ChangedLinksStay(s, Acted(s, t, act), t, act);
      TargetActed(s, t, act);
      TargetOthers(s, Step(s, e), t);
    case DoPrune(t, act) =>
      PruneShape(s, t, s.tasks[t].prune, act);
      PruneStays(s, t, s.tasks[t].prune, act);
      TargetOthers(s, Step(s, e), t);
    case Inside(l, me) => TargetInside(s, l, me);
    case _ => TargetOthers(s, Step(s, e), e.t);
  }

  // ---- No live connection is lost ----

  /** Some call has opened the connection and not yet published it. */
  ghost predicate Hatching(s: State, l: nat) { exists t :: t in s.tasks && Fresh(s.tasks[t]) == Some(l) }

  /** Every live connection is in the pool, or its opener is about to put it there. */
  ghost predicate Housed(s: State) { forall l | Alive(s, l) :: Pooled(s, l) || Hatching(s, l) }

  /** Live connections of the pool stay in it. */
  ghost predicate PoolKept(s: State, d: State) { forall l | Pooled(s, l) && Alive(d, l) :: Pooled(d, l) }

  /** No connection comes to life but a new one. */
  ghost predicate LivesFall(s: State, d: State) { forall l | Alive(d, l) && l in s.links :: Alive(s, l) }

  lemma ReusingKept(s: State, t: nat, act: Act)
    requires Acting(s, t) && ActEnabled(s, t, act) && Reusing(act)
    ensures PoolKept(s, Acted(s, t, act)) && LivesFall(s, Acted(s, t, act))
  {
  }

  lemma DialingKept(s: State, t: nat, act: Act)
    requires Acting(s, t) && ActEnabled(s, t, act) && !Reusing(act)
    ensures PoolKept(s, Acted(s, t, act)) && LivesFall(s, Acted(s, t, act))
  {
  }

  /** The call keeps its fresh connection until it publishes it. */
  lemma ActedHatching(s: State, t: nat, act: Act)
    requires Acting(s, t) && ActEnabled(s, t, act)
    ensures var d := Acted(s, t, act);
            && Acting(d, t)
            && (Fresh(s.tasks[t]).Some? && !act.Publish? ==> Fresh(d.tasks[t]) == Fresh(s.tasks[t]))
            && (forall l | l in d.links && l !in s.links :: Fresh(d.tasks[t]) == Some(l))
  {
  }

  lemma HousedChange(s: State, d: State, t: nat)
    requires Housed(s) && PoolKept(s, d) && LivesFall(s, d) && t in d.tasks && d.tasks == s.tasks[t := d.tasks[t]]
    requires forall l | l in d.links && l !in s.links :: Fresh(d.tasks[t]) == Some(l)
    requires t in s.tasks && Fresh(s.tasks[t]).Some? ==>
               Fresh(d.tasks[t]) == Fresh(s.tasks[t]) || Pooled(d, Fresh(s.tasks[t]).value)
    ensures Housed(d)
  {
    forall l | Alive(d, l) ensures Pooled(d, l) || Hatching(d, l) {
      if l in s.links {
        assert Pooled(s, l) || Hatching(s, l);
        if Hatching(s, l) {
          var u :| u in s.tasks && Fresh(s.tasks[u]) == Some(l);
          assert u in d.tasks;
        }
      }
    }
  }

  lemma PublishedPooled(s: State, t: nat)
    requires Tidy(s) && Acting(s, t) && ActEnabled(s, t, Publish)
    ensures Fresh(s.tasks[t]).Some? && Pooled(Acted(s, t, Publish), Fresh(s.tasks[t]).value)
  {
    assert PrivateTo(s, t, Fresh(s.tasks[t]).value);
  }

  lemma HousedActed(s: State, t: nat, act: Act)
    requires Housed(s) && Tidy(s) && Acting(s, t) && ActEnabled(s, t, act)
    ensures Housed(Acted(s, t, act))
  {
    ActedTasks(s, t, act);
    if Reusing(act) { ReusingKept(s, t, act); } else { DialingKept(s, t, act); }
    ActedHatching(s, t, act);
    if act.Publish? { PublishedPooled(s, t); }
    HousedChange(s, Acted(s, t, act), t);
  }

  lemma PruneKept(s: State, t: nat, pc: PrunePc, act: PruneAct)
    requires PruneEnabled(s, pc, act)
    ensures PoolKept(s, PruneStep(s, t, pc, act)) && LivesFall(s, PruneStep(s, t, pc, act))
  {
  }

  lemma HousedPrune(s: State, t: nat, act: PruneAct)
    requires Housed(s) && t in s.tasks && s.tasks[t].Prune? && PruneEnabled(s, s.tasks[t].prune, act)
    ensures Housed(PruneStep(s, t, s.tasks[t].prune, act))
  {
    PruneShape(s, t, s.tasks[t].prune, act);
    PruneKept(s, t, s.tasks[t].prune, act);
    HousedChange(s, PruneStep(s, t, s.tasks[t].prune, act), t);
  }

  lemma AliveFalls(c: Mux.Conn, e: Mux.Event)
    requires Mux.Enabled(c, e) && Mux.Step(c, e).alive
    ensures c.alive
  {
  }

  lemma HousedInside(s: State, l: nat, e: Mux.Event)
    requires Housed(s) && l in s.links && Mux.Enabled(s.links[l].conn, e)
    ensures Housed(OnLink(s, l, e))
  {
    var d := OnLink(s, l, e);
    forall m | Alive(d, m) ensures Pooled(d, m) || Hatching(d, m) {
      if m == l { AliveFalls(s.links[l].conn, e); }
      assert Alive(s, m);
      assert Pooled(s, m) ==> Pooled(d, m);
      if Hatching(s, m) {
        var u :| u in s.tasks && Fresh(s.tasks[u]) == Some(m);
        assert u in d.tasks;
      }
    }
  }

  lemma HousedSwap(s: State, t: nat)
    requires Housed(s) && Enabled(s, EndSwap(t))
    ensures Housed(Step(s, EndSwap(t)))
  {
    HousedChange(s, Step(s, EndSwap(t)), t);
  }

  lemma HousedStep(s: State, e: Event)
    requires Housed(s) && Tidy(s) && Enabled(s, e)
    ensures Housed(Step(s, e))
  {
    match e
    case Do(t, act) => HousedActed(s, t, act);
    case DoPrune(t, act) => HousedPrune(s, t, act);
    case Inside(l, me) => HousedInside(s, l, me);
    case EndSwap(t) => HousedSwap(s, t);
    case _ => HousedChange(s, Step(s, e), e.t);
  }
}
