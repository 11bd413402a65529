/** The two rounds of a `resolve`. */
module PoolRounds {
  import opened Bytes
  import opened Inflight
  import Mux
  import MuxSafety
  import opened Pool
  import opened PoolShape
  import opened PoolReplies

  /** The attempts of a call, on all connections. */
  ghost function AttemptsOf(s: State, t: nat): set<(nat, nat)> {
    set l, k | l in s.links && k in s.links[l].conn.ids.attempts && TheAttempt(s, l, k).caller == t :: (l, k)
  }

  /** The rounds in which a call may have made an attempt: the first if it is in the
      second, and the present one once it has an id. */
  function Spent(task: Task): nat {
    if !task.Resolve? then 0
    else (if task.forced then 1 else 0)
         + (if task.pc.WantPublish? || task.pc.Running? || task.pc.Answered? || task.pc.Failed? then 1 else 0)
  }

  /** One of the call's attempts failed for good. */
  ghost predicate HasFatal(s: State, t: nat) {
    exists l, k ::
      HasAttempt(s, l, k) && TheAttempt(s, l, k).caller == t && TheAttempt(s, l, k).phase == Finished(Fatal)
  }

  ghost predicate RoundOk(s: State, t: nat)
    requires Acting(s, t)
  {
    && |AttemptsOf(s, t)| <= Spent(s.tasks[t])
    && (s.tasks[t].pc.Failed? && !s.tasks[t].forced ==> HasFatal(s, t))
  }

  /** What has become of the caller of a finished attempt: it has yet to see the outcome, or
      was answered with the reply, failed for good, or is in or past its second round. */
  ghost predicate Concluded(s: State, l: nat, k: nat)
    requires HasAttempt(s, l, k) && Acting(s, TheAttempt(s, l, k).caller)
  {
    var x := TheAttempt(s, l, k);
    var task := s.tasks[x.caller];
    x.phase.Finished? && task.pc != Running(l, k) ==>
      match x.phase.outcome
      case Ok(reply) => task.pc == Answered(l, k, reply)
      case Fatal => task.pc.Failed?
      case Retry => task.forced
  }

  ghost predicate RoundsOk(s: State) {
    && (forall l, k | HasAttempt(s, l, k) :: Acting(s, TheAttempt(s, l, k).caller) && Concluded(s, l, k))
    && (forall t | Acting(s, t) :: RoundOk(s, t))
  }

  /** Attempts stay with their callers, and finished ones as they finished. */
  ghost predicate AttemptsStay(s: State, d: State) {
    forall l, k | HasAttempt(s, l, k) ::
      && HasAttempt(d, l, k) && TheAttempt(d, l, k).caller == TheAttempt(s, l, k).caller
      && (TheAttempt(s, l, k).phase.Finished? ==> TheAttempt(d, l, k).phase == TheAttempt(s, l, k).phase)
  }

  /** No attempt is new, but for one of `t`. */
  ghost predicate AttemptsNew(s: State, d: State, t: nat, l: nat, k: nat) {
    forall m, j | HasAttempt(d, m, j) && !HasAttempt(s, m, j) :: m == l && j == k && TheAttempt(d, m, j).caller == t
  }

  lemma FatalStays(s: State, d: State, t: nat)
    requires AttemptsStay(s, d) && HasFatal(s, t)
    ensures HasFatal(d, t)
  {
    var l, k :| HasAttempt(s, l, k) && TheAttempt(s, l, k).caller == t && TheAttempt(s, l, k).phase == Finished(Fatal);
    assert HasAttempt(d, l, k);
  }

  lemma OthersAttempts(s: State, d: State, t: nat, l: nat, k: nat, u: nat)
    requires AttemptsStay(s, d) && AttemptsNew(s, d, t, l, k)
    ensures u != t ==> AttemptsOf(d, u) == AttemptsOf(s, u)
    ensures AttemptsOf(d, t) <= AttemptsOf(s, t) + {(l, k)}
  {
    forall m, j | (m, j) in AttemptsOf(d, u) ensures u != t ==> (m, j) in AttemptsOf(s, u) {
      assert HasAttempt(d, m, j);
      assert HasAttempt(s, m, j) || (m == l && j == k);
    }
    forall m, j | (m, j) in AttemptsOf(s, u) ensures (m, j) in AttemptsOf(d, u) { assert HasAttempt(s, m, j); }
    forall m, j | (m, j) in AttemptsOf(d, t) ensures (m, j) in AttemptsOf(s, t) + {(l, k)} {
      assert HasAttempt(d, m, j);
      assert HasAttempt(s, m, j) || (m == l && j == k);
    }
  }

  lemma SameOfAll(s: State, d: State, u: nat)
    requires AttemptsStay(s, d) && forall m, j | HasAttempt(d, m, j) :: HasAttempt(s, m, j)
    ensures AttemptsOf(d, u) == AttemptsOf(s, u)
  {
    forall m, j | (m, j) in AttemptsOf(d, u) ensures (m, j) in AttemptsOf(s, u) { assert HasAttempt(d, m, j); }
    forall m, j | (m, j) in AttemptsOf(s, u) ensures (m, j) in AttemptsOf(d, u) { assert HasAttempt(s, m, j); }
  }

  lemma Fewer(a: set<(nat, nat)>, b: set<(nat, nat)>, x: (nat, nat))
    requires a <= b + {x}
    ensures |a| <= |b| + 1
  {
    assert a - {x} <= b && |a - {x}| <= |b| by { assert b == (a - {x}) + (b - (a - {x})); }
    if x in a { assert a == (a - {x}) + {x}; } else { assert a == a - {x}; }
  }

  /** One call moves and no attempt is new. */
  lemma RoundsMove(s: State, d: State, t: nat)
    requires RoundsOk(s) && t in d.tasks && d.tasks == s.tasks[t := d.tasks[t]]
    requires AttemptsStay(s, d) && forall m, j | HasAttempt(d, m, j) :: HasAttempt(s, m, j)
    requires Acting(s, t) ==> Acting(d, t)
    requires Acting(s, t) ==> Spent(s.tasks[t]) <= Spent(d.tasks[t])
    requires Acting(d, t) && d.tasks[t].pc.Failed? && !d.tasks[t].forced ==> HasFatal(d, t)
    requires forall l, k | HasAttempt(s, l, k) :: TheAttempt(d, l, k).phase == TheAttempt(s, l, k).phase
    requires Acting(s, t) && d.tasks[t] != s.tasks[t] ==> Proceeds(s, d, t)
    ensures RoundsOk(d)
  {
    forall u | Acting(d, u) ensures RoundOk(d, u) {
      SameOfAll(s, d, u);
      if Acting(s, u) {
        assert RoundOk(s, u);
        if HasFatal(s, u) { FatalStays(s, d, u); }
      } else {
        NoAttempts(s, u);
      }
    }
    forall l, k | HasAttempt(d, l, k) ensures Acting(d, TheAttempt(d, l, k).caller) && Concluded(d, l, k) {
      assert HasAttempt(s, l, k) && Concluded(s, l, k);
    }
  }

  /** A call that was answered or failed does not move; one that leaves its attempt sees its
      outcome and does as it says; the second round is not left. */
  ghost predicate Proceeds(s: State, d: State, t: nat)
    requires Acting(s, t) && Acting(d, t)
  {
    var pc, after := s.tasks[t].pc, d.tasks[t].pc;
    && !pc.Answered? && !pc.Failed?
    && (s.tasks[t].forced ==> d.tasks[t].forced)
    && (pc.Running? && after != pc ==>
          && HasAttempt(s, pc.link, pc.ticket) && TheAttempt(s, pc.link, pc.ticket).phase.Finished?
          && match TheAttempt(s, pc.link, pc.ticket).phase.outcome
             case Ok(reply) => after == Answered(pc.link, pc.ticket, reply)
             case Fatal => after.Failed?
             case Retry => d.tasks[t].forced)
  }

  lemma ReusingProceeds(s: State, t: nat, act: Act)
    requires Acting(s, t) && ActEnabled(s, t, act) && Reusing(act)
    ensures Acting(Acted(s, t, act), t) && Proceeds(s, Acted(s, t, act), t)
  {
  }

  lemma DialingProceeds(s: State, t: nat, act: Act)
    requires Acting(s, t) && ActEnabled(s, t, act) && !Reusing(act)
    ensures Acting(Acted(s, t, act), t) && Proceeds(s, Acted(s, t, act), t)
  {
  }

  lemma NoAttempts(s: State, u: nat)
    requires RoundsOk(s) && !Acting(s, u)
    ensures AttemptsOf(s, u) == {}
  {
    forall m: nat, j: nat ensures (m, j) !in AttemptsOf(s, u) {
      if HasAttempt(s, m, j) { assert Acting(s, TheAttempt(s, m, j).caller); }
    }
  }

  /** A call gets an id. */
  lemma RoundsAllocate(s: State, d: State, t: nat, l: nat, k: nat)
    requires RoundsOk(s) && Acting(s, t) && Acting(d, t) && d.tasks == s.tasks[t := d.tasks[t]]
    requires AttemptsStay(s, d) && AttemptsNew(s, d, t, l, k)
    requires Spent(s.tasks[t]) + 1 <= Spent(d.tasks[t]) && !d.tasks[t].pc.Failed?
    requires HasAttempt(d, l, k) && !TheAttempt(d, l, k).phase.Finished? && Proceeds(s, d, t) && !s.tasks[t].pc.Running?
    requires forall m, j | HasAttempt(s, m, j) :: TheAttempt(d, m, j).phase == TheAttempt(s, m, j).phase
    ensures RoundsOk(d)
  {
    forall u | Acting(d, u) ensures RoundOk(d, u) {
      assert RoundOk(s, u);
      OthersAttempts(s, d, t, l, k, u);
      if u == t { Fewer(AttemptsOf(d, t), AttemptsOf(s, t), (l, k)); }
      else if HasFatal(s, u) { FatalStays(s, d, u); }
    }
    forall m, j | HasAttempt(d, m, j) ensures Acting(d, TheAttempt(d, m, j).caller) && Concluded(d, m, j) {
      if HasAttempt(s, m, j) { assert Acting(s, TheAttempt(s, m, j).caller) && Concluded(s, m, j); }
    }
  }

  lemma ReusingSpent(s: State, t: nat, act: Act)
    requires Acting(s, t) && ActEnabled(s, t, act) && Reusing(act)
    ensures var d := Acted(s, t, act);
            && Acting(d, t) && Spent(s.tasks[t]) + (if act.Hit? then 1 else 0) <= Spent(d.tasks[t])
            && (d.tasks[t].pc.Failed? ==> d.tasks[t].forced)
  {
  }

  /** A first round that comes to an end otherwise than by an answer or a failure for good
      leads to the second. */
  lemma DialingSpent(s: State, t: nat, act: Act)
    requires Acting(s, t) && ActEnabled(s, t, act) && !Reusing(act)
    ensures var d := Acted(s, t, act);
            && Acting(d, t) && Spent(s.tasks[t]) + (if act.First? then 1 else 0) <= Spent(d.tasks[t])
            && (d.tasks[t].pc.Failed? && !d.tasks[t].forced ==>
                  act.Finish? && TheAttempt(s, s.tasks[t].pc.link, s.tasks[t].pc.ticket).phase == Finished(Fatal))
  {
  }

  lemma AllocateAttempts(s: State, d: State, t: nat, l: nat, ticket: nat)
    requires Acting(s, t) && CanAllocate(s, t, l, ticket) && Owned(s.links[l].conn.ids)
    requires d.links == OnLink(s, l, Mux.Allocate(ticket, t, s.tasks[t].query)).links
    ensures AttemptsStay(s, d) && AttemptsNew(s, d, t, l, ticket)
    ensures HasAttempt(d, l, ticket) && !TheAttempt(d, l, ticket).phase.Finished?
    ensures forall m, j | HasAttempt(s, m, j) :: TheAttempt(d, m, j).phase == TheAttempt(s, m, j).phase
  {
    assert ticket !in s.links[l].conn.ids.attempts;
  }

  lemma OtherAttempts(s: State, d: State, t: nat, act: Act)
    requires Acting(s, t) && ActEnabled(s, t, act) && LinksChange(s, d, t, act) && !act.Hit? && !act.First?
    ensures AttemptsStay(s, d) && forall m, j | HasAttempt(d, m, j) :: HasAttempt(s, m, j)
    ensures forall m, j | HasAttempt(s, m, j) :: TheAttempt(d, m, j).phase == TheAttempt(s, m, j).phase
  {
  }

  lemma FatalNow(s: State, d: State, t: nat)
    requires Linked(s) && Acting(s, t) && s.tasks[t].pc.Running? && AttemptsStay(s, d)
    requires HasAttempt(s, s.tasks[t].pc.link, s.tasks[t].pc.ticket)
    requires TheAttempt(s, s.tasks[t].pc.link, s.tasks[t].pc.ticket).phase == Finished(Fatal)
    ensures HasFatal(d, t)
  {
    assert TaskLinked(s, t);
    assert HasFatal(s, t);
    FatalStays(s, d, t);
  }

  lemma RoundsActed(s: State, t: nat, act: Act)
    requires RoundsOk(s) && Linked(s) && AllOwned(s) && Acting(s, t) && ActEnabled(s, t, act)
    ensures RoundsOk(Acted(s, t, act))
  {
    var d := Acted(s, t, act);
    ActedTasks(s, t, act);
    ActedLinks(s, t, act);
    if Reusing(act) {
      ReusingSpent(s, t, act);
      ReusingProceeds(s, t, act);
    } else {
      DialingSpent(s, t, act);
      DialingProceeds(s, t, act);
    }
    if act.Hit? {
      AllocateAttempts(s, d, t, s.tasks[t].pc.todo[0], act.ticket);
      HitRuns(s, t, act.ticket);
      RoundsAllocate(s, d, t, s.tasks[t].pc.todo[0], act.ticket);
    } else if act.First? {
      AllocateAttempts(s, d, t, s.tasks[t].pc.link, act.ticket);
      FirstRuns(s, t, act.ticket);
      RoundsAllocate(s, d, t, s.tasks[t].pc.link, act.ticket);
    } else {
      OtherAttempts(s, d, t, act);
      if d.tasks[t].pc.Failed? && !d.tasks[t].forced { FatalNow(s, d, t); }
      RoundsMove(s, d, t);
    }
  }

  lemma HitRuns(s: State, t: nat, ticket: nat)
    requires Acting(s, t) && ActEnabled(s, t, Hit(ticket))
    ensures !Acted(s, t, Hit(ticket)).tasks[t].pc.Failed?
  {
  }

  lemma FirstRuns(s: State, t: nat, ticket: nat)
    requires Acting(s, t) && ActEnabled(s, t, First(ticket))
    ensures !Acted(s, t, First(ticket)).tasks[t].pc.Failed?
  {
  }

  lemma RoundsInside(s: State, l: nat, e: Mux.Event)
    requires RoundsOk(s) && Enabled(s, Inside(l, e)) && Owned(s.links[l].conn.ids)
    ensures RoundsOk(OnLink(s, l, e))
  {
    var d := OnLink(s, l, e);
    InsideAdvances(s, l, e);
    assert AttemptsStay(s, d) by {
      forall m, k | HasAttempt(s, m, k)
        ensures AttemptAdvanced(s, TheAttempt(s, m, k), TheAttempt(d, m, k), m, k) { }
    }
    forall u | Acting(d, u) ensures RoundOk(d, u) {
      assert RoundOk(s, u);
      SameOfAll(s, d, u);
      if HasFatal(s, u) { FatalStays(s, d, u); }
    }
    forall m, k | HasAttempt(d, m, k) ensures Acting(d, TheAttempt(d, m, k).caller) && Concluded(d, m, k) {
      assert HasAttempt(s, m, k) && Concluded(s, m, k);
      assert AttemptAdvanced(s, TheAttempt(s, m, k), TheAttempt(d, m, k), m, k);
    }
  }

  lemma PruneAttempts(s: State, t: nat, pc: PrunePc, act: PruneAct)
    requires PruneEnabled(s, pc, act)
    ensures var d := PruneStep(s, t, pc, act);
            && AttemptsStay(s, d) && (forall m, j | HasAttempt(d, m, j) :: HasAttempt(s, m, j))
            && forall m, j | HasAttempt(s, m, j) :: TheAttempt(d, m, j).phase == TheAttempt(s, m, j).phase
  {
    PruneShape(s, t, pc, act);
  }

  lemma RoundsPrune(s: State, t: nat, act: PruneAct)
    requires RoundsOk(s) && t in s.tasks && s.tasks[t].Prune? && PruneEnabled(s, s.tasks[t].prune, act)
    ensures RoundsOk(PruneStep(s, t, s.tasks[t].prune, act))
  {
    PruneAttempts(s, t, s.tasks[t].prune, act);
    PruneShape(s, t, s.tasks[t].prune, act);
    RoundsMove(s, PruneStep(s, t, s.tasks[t].prune, act), t);
  }

  /** A call begins, or a swap ends: no attempt changes but in who is alive. */
  lemma RoundsOther(s: State, e: Event)
    requires RoundsOk(s) && Enabled(s, e) && !e.Do? && !e.DoPrune? && !e.Inside?
    ensures RoundsOk(Step(s, e))
  {
    RoundsMove(s, Step(s, e), e.t);
  }

  lemma RoundsStep(s: State, e: Event)
    requires RoundsOk(s) && Linked(s) && AllOwned(s) && Enabled(s, e)
    ensures RoundsOk(Step(s, e))
  {
    if e.Do? {
      RoundsActed(s, e.t, e.act);
    } else if e.DoPrune? {
      RoundsPrune(s, e.t, e.prune);
    } else if e.Inside? {
      RoundsInside(s, e.link, e.e);
    } else {
      RoundsOther(s, e);
    }
  }
}
