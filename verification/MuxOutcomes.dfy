/** How attempts end, and when the reader may leave. */
module MuxOutcomes {
  import opened Bytes
  import opened Framing
  import opened Inflight
  import opened Mux
  import opened MuxSafety

  // ---- Every run: what an attempt comes to ----

  /** What has been decided about an attempt. */
  datatype Fate = Undecided | Succeeds | Retries | Fails

  function FateIn(phase: Phase): Fate {
    match phase
    case Removing(fatal) => if fatal then Fails else Retries
    case Finished(Ok(_)) => Succeeds
    case Finished(Retry) => Retries
    case Finished(Fatal) => Fails
    case _ => Undecided
  }

  function FateOf(c: Conn, k: nat): Fate { if k in c.ids.attempts then FateIn(c.ids.attempts[k].phase) else Undecided }

  /** What the event decides about attempt `k`. */
  function Decision(e: Event, k: nat): Fate {
    if !e.Do? || e.k != k then Undecided
    else match e.act
         case TimeOut => Fails
         case WriteFail => Retries
         case SeeDropped => Retries
         case TakeReply => Succeeds
         case _ => Undecided
  }

  lemma FateAct(c: Conn, k: nat, act: Act)
    requires k in c.ids.attempts && ActEnabled(c, k, act)
    ensures FateOf(c, k) == Undecided && FateOf(Acted(c, k, act), k) == Decision(Do(k, act), k)
  {
  }

  lemma FateIds(s: Ids, k: nat, outcome: Outcome)
    requires k in s.attempts && s.attempts[k].phase.Removing? && !outcome.Ok?
    requires outcome == if s.attempts[k].phase.fatal then Fatal else Retry
    ensures FateIn(s.Remove(k, outcome).attempts[k].phase) == FateIn(s.attempts[k].phase)
  {
  }

  lemma FateStep(c: Conn, e: Event, k: nat)
    requires Owned(c.ids) && Enabled(c, e)
    ensures Decision(e, k) != Undecided ==> FateOf(c, k) == Undecided
    ensures FateOf(Step(c, e), k) == if Decision(e, k) != Undecided then Decision(e, k) else FateOf(c, k)
  {
    if Actor(e) == Some(k) {
      if e.Do? { FateAct(c, k, e.act); }
      if e.Remove? { FateIds(c.ids, k, if c.ids.attempts[k].phase.fatal then Fatal else Retry); }
    } else {
      OthersKeepPhase(c, e);
      if k !in c.ids.attempts { NobodyElse(c, e, k); }
    }
  }

  lemma NobodyElse(c: Conn, e: Event, k: nat)
    requires Enabled(c, e) && Actor(e) != Some(k) && k !in c.ids.attempts
    ensures k !in Step(c, e).ids.attempts
  {
    if !e.Allocate? { SettledStep(c, e); }
  }

  /** Some event decides `f` about attempt `k`. */
  predicate Decides(es: seq<Event>, k: nat, f: Fate)
    decreases |es|
  {
    es != [] && (Decision(es[0], k) == f || Decides(es[1..], k, f))
  }

  lemma {:induction false} FateRun(c: Conn, es: seq<Event>, k: nat, f: Fate)
    requires Owned(c.ids) && Runs(c, es) && f != Undecided
    ensures FateOf(c, k) != Undecided ==> FateOf(After(c, es), k) == FateOf(c, k) && !Decides(es, k, f)
    ensures FateOf(c, k) == Undecided ==> (FateOf(After(c, es), k) == f <==> Decides(es, k, f))
    decreases |es|
  {
    if es != [] {
      FateStep(c, es[0], k);
      OwnedStep(c, es[0]);
      FateRun(Step(c, es[0]), es[1..], k, f);
    }
  }

  lemma {:induction false} DecidesMeaning(es: seq<Event>, k: nat)
    ensures Decides(es, k, Fails) <==> Do(k, TimeOut) in es
    ensures Decides(es, k, Retries) <==> Do(k, WriteFail) in es || Do(k, SeeDropped) in es
    ensures Decides(es, k, Succeeds) <==> Do(k, TakeReply) in es
    decreases |es|
  {
    if es != [] {
      DecidesMeaning(es[1..], k);
      assert es == [es[0]] + es[1..];
    }
  }

  /** In every run an attempt comes to fail for good if and only if it timed out waiting, to
      be retried if and only if its write failed or it saw its sender dropped, and to
      succeed if and only if it took a reply; it comes to one of these at most. */
  lemma OutcomeCauses(es: seq<Event>, k: nat)
    requires Runs(Opened, es)
    ensures FateOf(After(Opened, es), k) == Fails <==> Do(k, TimeOut) in es
    ensures FateOf(After(Opened, es), k) == Retries <==> Do(k, WriteFail) in es || Do(k, SeeDropped) in es
    ensures FateOf(After(Opened, es), k) == Succeeds <==> Do(k, TakeReply) in es
  {
    FateRun(Opened, es, k, Fails);
    FateRun(Opened, es, k, Retries);
    FateRun(Opened, es, k, Succeeds);
    DecidesMeaning(es, k);
  }

  // ---- Every run: a live connection works ----

  /** A connection marked live has had no failed write, and its reader has not left. */
  predicate Working(c: Conn) { c.alive ==> !c.broken && (c.reader.Reading? || c.reader.Stopped?) }

  lemma WorkingStep(c: Conn, e: Event)
    requires Working(c) && Enabled(c, e)
    ensures Working(Step(c, e))
  {
  }

  lemma {:induction false} WorkingRun(c: Conn, es: seq<Event>)
    requires Working(c) && Runs(c, es)
    ensures Working(After(c, es))
    decreases |es|
  {
    if es != [] {
      WorkingStep(c, es[0]);
      WorkingRun(Step(c, es[0]), es[1..]);
    }
  }

  /** In every run a write that fails, and a reader that leaves, mark the connection dead. */
  lemma LiveWorks(es: seq<Event>)
    requires Runs(Opened, es) && After(Opened, es).alive
    ensures !After(Opened, es).broken && !After(Opened, es).reader.Marked? && !After(Opened, es).reader.Gone?
  {
    WorkingRun(Opened, es);
  }

  // ---- Timely runs: replies arrive, and the idle reader leaves nobody waiting ----

  lemma ReplyReaches(c: Conn, body: seq<Byte>, j: nat, lags: Lags)
    requires Routed(c) && Enabled(c, Deliver(body, Some(j))) && Timely(c, Deliver(body, Some(j)), lags)
    requires lags.reply < IDS && Unanswered(c, c.wire[j].owner)
    ensures var k := c.wire[j].owner;
            k in Step(c, Deliver(body, Some(j))).ids.attempts
            && Step(c, Deliver(body, Some(j))).ids.attempts[k] == c.ids.attempts[k].(rx := Got(body))
  {
    OwnEntry(c, body, Some(j), lags);
    assert KeepsId(c.ids, c.wire[j].owner);
  }

  /** With replies and removals on time, the reply to a frame reaches the attempt that wrote
      it, if that attempt is still unanswered, and changes nothing else about it. */
  lemma ReplyArrives(es: seq<Event>, body: seq<Byte>, j: nat, lags: Lags)
    requires Runs(Opened, es) && TimelyRun(Opened, es, lags) && lags.reply < IDS && lags.remove < IDS
    requires var c := After(Opened, es);
             && Enabled(c, Deliver(body, Some(j))) && Timely(c, Deliver(body, Some(j)), lags)
             && Unanswered(c, c.wire[j].owner)
    ensures var c := After(Opened, es);
            var k := c.wire[j].owner;
            k in Step(c, Deliver(body, Some(j))).ids.attempts
            && Step(c, Deliver(body, Some(j))).ids.attempts[k] == c.ids.attempts[k].(rx := Got(body))
  {
    RoutedRun(Opened, es, lags);
    ReplyReaches(After(Opened, es), body, j, lags);
  }

  /** With replies and removals on time, the reader leaves for idleness only while nobody
      on the connection is unanswered; and it may as soon as all attempts are over. */
  lemma IdleLeavesNobody(es: seq<Event>, lags: Lags)
    requires Runs(Opened, es) && TimelyRun(Opened, es, lags) && lags.reply < IDS && lags.remove < IDS
    ensures var c := After(Opened, es);
            && (Enabled(c, Flag(Idle)) ==> forall k | k in c.ids.attempts :: !Unanswered(c, k))
            && (c.reader.Reading? && (forall k | k in c.ids.attempts :: !Unfinished(c, k)) ==> Enabled(c, Flag(Idle)))
  {
    RoutedRun(Opened, es, lags);
    NoLeakedIds(es);
    if !After(Opened, es).reader.Gone? { UnansweredInMap(After(Opened, es)); }
  }
}
