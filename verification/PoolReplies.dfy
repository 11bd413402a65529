/** Replies and ids across the whole DNS pool. */
module PoolReplies {
  import opened Bytes
  import opened Inflight
  import Mux
  import MuxSafety
  import opened Pool
  import opened PoolShape

  // ---- Every connection is sound and, in timely runs, routed ----

  /** What is known about the lags: nothing; enough for replies to be routed whatever the
      removals; enough for everybody to keep its id whatever the installations. */
  datatype Pace = Wild | Routing | Keeping

  predicate Fits(pace: Pace, lags: Mux.Lags) {
    match pace
    case Wild => true
    case Routing => lags.reply < IDS && lags.install < IDS
    case Keeping => lags.reply < IDS && lags.remove < IDS
  }

  ghost predicate ConnGood(c: Mux.Conn, pace: Pace) {
    MuxSafety.Sound(c) && (pace.Wild? || MuxSafety.Answering(c)) && (pace.Keeping? ==> MuxSafety.Routed(c))
  }

  ghost predicate Good(s: State, pace: Pace) { forall l | l in s.links :: ConnGood(s.links[l].conn, pace) }

  lemma ConnGoodStep(c: Mux.Conn, e: Mux.Event, pace: Pace, lags: Mux.Lags)
    requires ConnGood(c, pace) && Mux.Enabled(c, e) && Fits(pace, lags) && (pace.Wild? || Mux.Timely(c, e, lags))
    ensures ConnGood(Mux.Step(c, e), pace)
  {
    MuxSafety.SoundStep(c, e);
    match pace
    case Wild =>
    case Routing => MuxSafety.AnsweringStep(c, e, lags);
    case Keeping => MuxSafety.RoutedStep(c, e, lags);
  }

  /** Allocations and kills are never late. */
  lemma ConnGoodPrompt(c: Mux.Conn, e: Mux.Event, pace: Pace)
    requires ConnGood(c, pace) && Mux.Enabled(c, e) && (e.Allocate? || e.Flag?)
    ensures ConnGood(Mux.Step(c, e), pace)
  {
    ConnGoodStep(c, e, pace, Mux.Lags(0, 0, 0));
  }

  lemma OpenedGood(pace: Pace)
    ensures ConnGood(Mux.Opened, pace)
  {
  }

  lemma GoodOnLink(s: State, l: nat, e: Mux.Event, pace: Pace)
    requires Good(s, pace) && l in s.links && Mux.Enabled(s.links[l].conn, e)
    requires ConnGood(Mux.Step(s.links[l].conn, e), pace)
    ensures Good(OnLink(s, l, e), pace)
  {
  }

  lemma GoodPrompt(s: State, l: nat, e: Mux.Event, pace: Pace)
    requires Good(s, pace) && l in s.links && Mux.Enabled(s.links[l].conn, e) && (e.Allocate? || e.Flag?)
    ensures Good(OnLink(s, l, e), pace)
  {
    ConnGoodPrompt(s.links[l].conn, e, pace);
    GoodOnLink(s, l, e, pace);
  }

  lemma GoodActed(s: State, t: nat, act: Act, pace: Pace)
    requires Good(s, pace) && Acting(s, t) && ActEnabled(s, t, act)
    ensures Good(Acted(s, t, act), pace)
  {
    ActedLinks(s, t, act);
    var pc, query := s.tasks[t].pc, s.tasks[t].query;
    if act.Hit? {
      GoodPrompt(s, pc.todo[0], Mux.Allocate(act.ticket, t, query), pace);
    } else if act.First? {
      GoodPrompt(s, pc.link, Mux.Allocate(act.ticket, t, query), pace);
    } else if act.DialOk? {
      OpenedGood(pace);
    }
  }

  lemma GoodSwap(s: State, pace: Pace)
    requires Good(s, pace)
    ensures forall l | l in s.links :: ConnGood(KillPooled(s)[l].conn, pace)
  {
    forall l | l in s.links ensures ConnGood(KillPooled(s)[l].conn, pace) {
      ConnGoodPrompt(s.links[l].conn, Mux.Flag(Mux.Kill), pace);
    }
  }

  lemma GoodPrune(s: State, t: nat, pc: PrunePc, act: PruneAct, pace: Pace)
    requires Good(s, pace) && PruneEnabled(s, pc, act)
    ensures Good(PruneStep(s, t, pc, act), pace)
  {
    PruneShape(s, t, pc, act);
    if act.Retire? { GoodPrompt(s, pc.link, Mux.Flag(Mux.Kill), pace); }
  }

  ghost predicate TimelyEvent(s: State, e: Event, lags: Mux.Lags)
    requires Enabled(s, e)
  {
    e.Inside? ==> Mux.Timely(s.links[e.link].conn, e.e, lags)
  }

  lemma GoodInside(s: State, l: nat, e: Mux.Event, pace: Pace, lags: Mux.Lags)
    requires Good(s, pace) && l in s.links && Mux.Enabled(s.links[l].conn, e)
    requires Fits(pace, lags) && (pace.Wild? || Mux.Timely(s.links[l].conn, e, lags))
    ensures Good(OnLink(s, l, e), pace)
  {
    ConnGoodStep(s.links[l].conn, e, pace, lags);
    GoodOnLink(s, l, e, pace);
  }

  lemma GoodStep(s: State, e: Event, pace: Pace, lags: Mux.Lags)
    requires Good(s, pace) && Enabled(s, e) && Fits(pace, lags) && (pace.Wild? || TimelyEvent(s, e, lags))
    ensures Good(Step(s, e), pace)
  {
    match e
    case Do(t, act) => GoodActed(s, t, act, pace);
    case DoPrune(t, act) => GoodPrune(s, t, s.tasks[t].prune, act, pace);
    case EndSwap(_) => GoodSwap(s, pace);
    case Inside(l, e) => GoodInside(s, l, e, pace, lags);
    case _ =>
  }

  // ---- Tasks and attempts know each other ----

  /** The connection and ticket of the attempt a call is in. */
  function Attempting(task: Task): Option<(nat, nat)> {
    if !task.Resolve? then None
    else match task.pc
         case WantPublish(l, k) => Some((l, k))
         case Running(l, k) => Some((l, k))
         case _ => None
  }

  predicate HasAttempt(s: State, l: nat, k: nat) { l in s.links && k in s.links[l].conn.ids.attempts }

  function TheAttempt(s: State, l: nat, k: nat): Attempt
    requires HasAttempt(s, l, k)
  {
    s.links[l].conn.ids.attempts[k]
  }

  predicate Mine(s: State, t: nat, l: nat, k: nat)
    requires Acting(s, t)
  {
    HasAttempt(s, l, k) && TheAttempt(s, l, k).caller == t && TheAttempt(s, l, k).query == s.tasks[t].query
  }

  predicate TaskLinked(s: State, t: nat)
    requires Acting(s, t)
  {
    && (Attempting(s.tasks[t]).Some? ==> Mine(s, t, Attempting(s.tasks[t]).value.0, Attempting(s.tasks[t]).value.1))
    && (s.tasks[t].pc.WantPublish? ==> TheAttempt(s, s.tasks[t].pc.link, s.tasks[t].pc.ticket).phase.Allocated?)
    && (s.tasks[t].pc.Answered? ==>
          var pc := s.tasks[t].pc;
          Mine(s, t, pc.link, pc.ticket) && TheAttempt(s, pc.link, pc.ticket).phase == Finished(Ok(pc.reply)))
  }

  predicate AttemptLinked(s: State, l: nat, k: nat)
    requires HasAttempt(s, l, k)
  {
    TheAttempt(s, l, k).phase.Finished?
    || (&& TheAttempt(s, l, k).caller in s.tasks
        && Attempting(s.tasks[TheAttempt(s, l, k).caller]) == Some((l, k)))
  }

  ghost predicate Linked(s: State) {
    && (forall t | Acting(s, t) :: TaskLinked(s, t))
    && (forall l, k | HasAttempt(s, l, k) :: AttemptLinked(s, l, k))
  }

  /** One task moves; no attempt changes. */
  lemma LinkedMove(s: State, d: State, t: nat)
    requires Linked(s) && t in d.tasks && d.tasks == s.tasks[t := d.tasks[t]]
    requires forall l, k | HasAttempt(s, l, k) :: HasAttempt(d, l, k) && TheAttempt(d, l, k) == TheAttempt(s, l, k)
    requires forall l, k | HasAttempt(d, l, k) :: HasAttempt(s, l, k)
    requires Acting(d, t) ==> TaskLinked(d, t)
    requires t in s.tasks && Attempting(s.tasks[t]).Some? && Attempting(d.tasks[t]) != Attempting(s.tasks[t]) ==>
               var (l, k) := Attempting(s.tasks[t]).value; HasAttempt(s, l, k) && TheAttempt(s, l, k).phase.Finished?
    ensures Linked(d)
  {
    forall u | Acting(d, u) ensures TaskLinked(d, u) {
      if u != t { assert TaskLinked(s, u); }
    }
    forall l, k | HasAttempt(d, l, k) ensures AttemptLinked(d, l, k) {
      assert AttemptLinked(s, l, k);
    }
  }

  /** The attempts of one connection move; only one whose task is at it changes phase. */
  ghost predicate Advanced(s: State, d: State) {
    && d.tasks == s.tasks
    && (forall l, k :: HasAttempt(d, l, k) <==> HasAttempt(s, l, k))
    && (forall l, k | HasAttempt(s, l, k) :: AttemptAdvanced(s, TheAttempt(s, l, k), TheAttempt(d, l, k), l, k))
  }

  predicate AttemptAdvanced(s: State, x: Attempt, y: Attempt, l: nat, k: nat) {
    && y.caller == x.caller && y.query == x.query
    && (x.phase.Finished? ==> y.phase == x.phase)
    && (y.phase == x.phase || (Acting(s, x.caller) && s.tasks[x.caller].pc == Running(l, k)))
  }

  lemma LinkedAdvanced(s: State, d: State)
    requires Linked(s) && Advanced(s, d)
    ensures Linked(d)
  {
    forall t | Acting(d, t) ensures TaskLinked(d, t) { assert TaskLinked(s, t); }
    forall l, k | HasAttempt(d, l, k) ensures AttemptLinked(d, l, k) { assert AttemptLinked(s, l, k); }
  }

  lemma InsideAdvances(s: State, l: nat, e: Mux.Event)
    requires Enabled(s, Inside(l, e)) && Owned(s.links[l].conn.ids)
    ensures Advanced(s, OnLink(s, l, e))
  {
    var c, d := s.links[l].conn, OnLink(s, l, e);
    MuxSafety.AdvanceStep(c, e);
    assert d.links[l].conn == Mux.Step(c, e);
    forall m: nat, k: nat | HasAttempt(s, m, k)
      ensures AttemptAdvanced(s, TheAttempt(s, m, k), TheAttempt(d, m, k), m, k)
    {
      if m == l { assert MuxSafety.Actor(e) == Some(k) ==> Running(l, k) == s.tasks[TheAttempt(s, l, k).caller].pc; }
    }
  }

  lemma LinkedInside(s: State, l: nat, e: Mux.Event)
    requires Linked(s) && Enabled(s, Inside(l, e)) && Owned(s.links[l].conn.ids)
    ensures Linked(OnLink(s, l, e))
  {
    InsideAdvances(s, l, e);
    LinkedAdvanced(s, OnLink(s, l, e));
  }

  /** A task that was in no attempt is given one. */
  lemma LinkedAllocate(s: State, d: State, t: nat, l: nat, ticket: nat)
    requires Linked(s) && Acting(s, t) && Attempting(s.tasks[t]).None? && CanAllocate(s, t, l, ticket)
    requires Owned(s.links[l].conn.ids)
    requires d.links == OnLink(s, l, Mux.Allocate(ticket, t, s.tasks[t].query)).links
    requires Acting(d, t) && d.tasks == s.tasks[t := d.tasks[t]] && d.tasks[t].query == s.tasks[t].query
    requires Attempting(d.tasks[t]) == Some((l, ticket))
    ensures Linked(d)
  {
    assert ticket !in s.links[l].conn.ids.attempts;
    forall u | Acting(d, u) ensures TaskLinked(d, u) {
      if u != t { assert TaskLinked(s, u); }
    }
    forall m, k | HasAttempt(d, m, k) ensures AttemptLinked(d, m, k) {
      if HasAttempt(s, m, k) { assert AttemptLinked(s, m, k); }
    }
  }

  /** How a step changes the attempt its task is in. */
  ghost predicate AttemptChange(s: State, d: State, t: nat, act: Act)
    requires Acting(s, t) && ActEnabled(s, t, act) && Acting(d, t)
  {
    var before, after := Attempting(s.tasks[t]), Attempting(d.tasks[t]);
    if act.Hit? then before.None? && after == Some((s.tasks[t].pc.todo[0], act.ticket))
    else if act.First? then before.None? && after == Some((s.tasks[t].pc.link, act.ticket))
    else if act.Publish? then after == before && !d.tasks[t].pc.WantPublish?
    else if act.Finish? then before == Some((s.tasks[t].pc.link, s.tasks[t].pc.ticket)) && after.None?
    else after == before && d.tasks[t].pc.WantPublish? == s.tasks[t].pc.WantPublish?
  }

  lemma ActedAttempting(s: State, t: nat, act: Act)
    requires Acting(s, t) && ActEnabled(s, t, act)
    ensures Acting(Acted(s, t, act), t) && AttemptChange(s, Acted(s, t, act), t, act)
  {
  }

  ghost predicate AnswerChange(s: State, d: State, t: nat)
    requires Acting(s, t) && Acting(d, t)
  {
    d.tasks[t].pc.Answered? ==>
      var pc := d.tasks[t].pc;
      && s.tasks[t].pc == Running(pc.link, pc.ticket)
      && HasAttempt(s, pc.link, pc.ticket) && TheAttempt(s, pc.link, pc.ticket).phase == Finished(Ok(pc.reply))
  }

  lemma ActedAnswer(s: State, t: nat, act: Act)
    requires Acting(s, t) && ActEnabled(s, t, act)
    ensures Acting(Acted(s, t, act), t) && AnswerChange(s, Acted(s, t, act), t)
  {
  }

  ghost predicate AllOwned(s: State) { forall l | l in s.links :: Owned(s.links[l].conn.ids) }

  lemma LinkedOther(s: State, d: State, t: nat, act: Act)
    requires Linked(s) && Acting(s, t) && ActEnabled(s, t, act) && !act.Hit? && !act.First?
    requires OwnTask(s, d, t) && LinksChange(s, d, t, act) && AttemptChange(s, d, t, act) && AnswerChange(s, d, t)
    ensures Linked(d)
  {
    assert TaskLinked(s, t);
    LinkedMove(s, d, t);
  }

  lemma LinkedChange(s: State, d: State, t: nat, act: Act)
    requires Linked(s) && AllOwned(s) && Acting(s, t) && ActEnabled(s, t, act)
    requires OwnTask(s, d, t) && LinksChange(s, d, t, act) && AttemptChange(s, d, t, act) && AnswerChange(s, d, t)
    ensures Linked(d)
  {
    if act.Hit? {
      LinkedAllocate(s, d, t, s.tasks[t].pc.todo[0], act.ticket);
    } else if act.First? {
      LinkedAllocate(s, d, t, s.tasks[t].pc.link, act.ticket);
    } else {
      LinkedOther(s, d, t, act);
    }
  }

  lemma LinkedActed(s: State, t: nat, act: Act)
    requires Linked(s) && AllOwned(s) && Acting(s, t) && ActEnabled(s, t, act)
    ensures Linked(Acted(s, t, act))
  {
    ActedTasks(s, t, act);
    ActedLinks(s, t, act);
    ActedAttempting(s, t, act);
    ActedAnswer(s, t, act);
    LinkedChange(s, Acted(s, t, act), t, act);
  }

  lemma LinkedPrune(s: State, t: nat, act: PruneAct)
    requires Linked(s) && t in s.tasks && s.tasks[t].Prune? && PruneEnabled(s, s.tasks[t].prune, act)
    ensures Linked(PruneStep(s, t, s.tasks[t].prune, act))
  {
    PruneShape(s, t, s.tasks[t].prune, act);
    LinkedMove(s, PruneStep(s, t, s.tasks[t].prune, act), t);
  }

  lemma LinkedSwap(s: State, t: nat)
    requires Linked(s) && Enabled(s, EndSwap(t))
    ensures Linked(Step(s, EndSwap(t)))
  {
    LinkedMove(s, Step(s, EndSwap(t)), t);
  }

  lemma LinkedStep(s: State, e: Event)
    requires Linked(s) && AllOwned(s) && Enabled(s, e)
    ensures Linked(Step(s, e))
  {
    match e
    case Do(t, act) => LinkedActed(s, t, act);
    case DoPrune(t, act) => LinkedPrune(s, t, act);
    case Inside(l, e) => LinkedInside(s, l, e);
    case EndSwap(t) => LinkedSwap(s, t);
    case _ => LinkedMove(s, Step(s, e), e.t);
  }
}
