/** The theorems about the DNS pool, over every run of any number of calls. */
module PoolTheorems {
  import opened Bytes
  import opened Inflight
  import Mux
  import MuxSafety
  import ConnIds
  import opened Pool
  import opened PoolShape
  import opened PoolBuckets
  import opened PoolReplies
  import opened PoolPrune
  import opened PoolTargets
  import opened PoolRounds

  ghost predicate Inv(s: State, pace: Pace) {
    && LocksOk(s) && Good(s, pace) && Linked(s) && Tidy(s) && Unused(s) && Capped(s) && OneStale(s)
    && Targeted(s) && Housed(s) && RoundsOk(s)
    && (pace.Keeping? ==> RetireSafe(s))
  }

  lemma GoodOwned(s: State, pace: Pace)
    requires Good(s, pace)
    ensures AllOwned(s)
  {
    forall l | l in s.links ensures Owned(s.links[l].conn.ids) { assert ConnGood(s.links[l].conn, pace); }
  }

  lemma InvStep(s: State, e: Event, pace: Pace, lags: Mux.Lags)
    requires Inv(s, pace) && Enabled(s, e) && Fits(pace, lags) && (pace.Wild? || TimelyEvent(s, e, lags))
    ensures Inv(Step(s, e), pace)
  {
    GoodOwned(s, pace);
    LocksStep(s, e);
    GoodStep(s, e, pace, lags);
    LinkedStep(s, e);
    TidyStep(s, e);
    UnusedStep(s, e);
    CappedStep(s, e);
    OneStaleStep(s, e);
    TargetStep(s, e);
    HousedStep(s, e);
    RoundsStep(s, e);
    if pace.Keeping? { RetireStep(s, e); }
  }

  lemma {:induction false} TimelyInvRun(s: State, es: seq<Event>, pace: Pace, lags: Mux.Lags)
    requires Inv(s, pace) && Runs(s, es) && Fits(pace, lags) && (pace.Wild? || TimelyRun(s, es, lags))
    ensures Inv(After(s, es), pace)
    decreases |es|
  {
    if es != [] {
      InvStep(s, es[0], pace, lags);
      TimelyInvRun(Step(s, es[0]), es[1..], pace, lags);
    }
  }

  lemma EmptyInv(pace: Pace)
    ensures Inv(Empty, pace)
  {
  }

  lemma PacedRun(es: seq<Event>, pace: Pace, lags: Mux.Lags)
    requires Runs(Empty, es) && Fits(pace, lags) && (pace.Wild? || TimelyRun(Empty, es, lags))
    ensures Inv(After(Empty, es), pace)
  {
    EmptyInv(pace);
    TimelyInvRun(Empty, es, pace, lags);
  }

  lemma InvRun(es: seq<Event>)
    requires Runs(Empty, es)
    ensures Inv(After(Empty, es), Wild)
  {
    PacedRun(es, Wild, Mux.Lags(0, 0, 0));
  }

  // ---- Replies ----

  /** Within the exact bound on the lags, a `resolve` that returns a reply returns the
      server's answer to the frame written for its own query, with its own id put back,
      on a connection to its own target. */
  lemma ResolveReturnsOwnReply(es: seq<Event>, t: nat, lags: Mux.Lags)
    requires Runs(Empty, es) && TimelyRun(Empty, es, lags)
    requires lags.reply < IDS && (lags.remove < IDS || lags.install < IDS)
    requires Acting(After(Empty, es), t) && After(Empty, es).tasks[t].pc.Answered?
    ensures var s := After(Empty, es);
            var pc := s.tasks[t].pc;
            && HasAttempt(s, pc.link, pc.ticket)
            && TheAttempt(s, pc.link, pc.ticket).caller == t
            && TheAttempt(s, pc.link, pc.ticket).query == s.tasks[t].query
            && MuxSafety.OwnReply(s.links[pc.link].conn, pc.ticket, pc.reply)
            && s.links[pc.link].server == s.tasks[t].server
  {
    var pace := if lags.remove < IDS then Keeping else Routing;
    PacedRun(es, pace, lags);
    OwnAnswer(After(Empty, es), t, pace);
  }

  lemma OwnAnswer(s: State, t: nat, pace: Pace)
    requires Linked(s) && Targeted(s) && Good(s, pace) && !pace.Wild? && Acting(s, t) && s.tasks[t].pc.Answered?
    ensures var pc := s.tasks[t].pc;
            && HasAttempt(s, pc.link, pc.ticket)
            && TheAttempt(s, pc.link, pc.ticket).caller == t
            && TheAttempt(s, pc.link, pc.ticket).query == s.tasks[t].query
            && MuxSafety.OwnReply(s.links[pc.link].conn, pc.ticket, pc.reply)
            && s.links[pc.link].server == s.tasks[t].server
  {
    var pc := s.tasks[t].pc;
    assert TaskLinked(s, t) && TargetOk(s, t);
    GoodReplies(s.links[pc.link].conn, pace, pc.ticket, pc.reply);
  }

  lemma GoodReplies(c: Mux.Conn, pace: Pace, k: nat, reply: seq<Byte>)
    requires ConnGood(c, pace) && !pace.Wild? && k in c.ids.attempts && c.ids.attempts[k].phase == Finished(Ok(reply))
    ensures MuxSafety.OwnReply(c, k, reply)
  {
    MuxSafety.AnsweringReplies(c);
  }

  /** In every run, every connection that a call tries, has opened, uses or was answered on
      is one to the call's own target; in its second round it is one the call has opened
      itself. */
  lemma CallsKeepToTarget(es: seq<Event>, t: nat, l: nat)
    requires Runs(Empty, es) && Acting(After(Empty, es), t)
    requires Lists(After(Empty, es).tasks[t], l) || On(After(Empty, es).tasks[t]) == Some(l)
    ensures var s := After(Empty, es);
            && l in s.links && s.links[l].server == s.tasks[t].server
            && (s.tasks[t].forced ==> s.links[l].opener == t && s.links[l].forced)
  {
    InvRun(es);
    assert TargetOk(After(Empty, es), t);
  }

  /** In every run a call makes at most two attempts, and if it fails in the first round one
      of them failed for good: everything else that ends a first round without an answer
      leads to the second. */
  lemma TwoRounds(es: seq<Event>, t: nat)
    requires Runs(Empty, es) && Acting(After(Empty, es), t)
    ensures var s := After(Empty, es);
            && |AttemptsOf(s, t)| <= 2 && (!s.tasks[t].forced ==> |AttemptsOf(s, t)| <= 1)
            && (s.tasks[t].pc.Failed? && !s.tasks[t].forced ==> HasFatal(s, t))
  {
    InvRun(es);
    assert RoundOk(After(Empty, es), t);
  }

  /** In every run, once a call has left a finished attempt it has done as the attempt's
      outcome says: it was answered with the very reply, failed for good, or is in or past
      its second round. */
  lemma OutcomesFollowed(es: seq<Event>, l: nat, k: nat)
    requires Runs(Empty, es) && HasAttempt(After(Empty, es), l, k)
    ensures var s := After(Empty, es); Acting(s, TheAttempt(s, l, k).caller) && Concluded(s, l, k)
  {
    InvRun(es);
  }

  // ---- Ids ----

  /** The call is a `resolve` in the middle of the attempt `k` on connection `l`. */
  predicate AtAttempt(s: State, t: nat, l: nat, k: nat) { Acting(s, t) && Attempting(s.tasks[t]) == Some((l, k)) }

  /** Whatever the servers send, every inflight entry of every connection belongs to a
      `resolve` that is still in that very attempt; when no `resolve` is in an attempt,
      every inflight map is empty. */
  lemma NoLeakedIdsInPool(es: seq<Event>)
    requires Runs(Empty, es)
    ensures var s := After(Empty, es);
            && (forall l, id | l in s.links && id in s.links[l].conn.ids.inflight :: EntryAtWork(s, l, id))
            && ((forall t | Acting(s, t) :: Attempting(s.tasks[t]).None?) ==>
                  forall l | l in s.links :: s.links[l].conn.ids.inflight == map[])
  {
    InvRun(es);
    var s := After(Empty, es);
    EntriesOwned(s);
    if forall t | Acting(s, t) :: Attempting(s.tasks[t]).None? { IdleIsEmpty(s); }
  }

  /** The entry under `id` of connection `l` belongs to a `resolve` in that very attempt. */
  ghost predicate EntryAtWork(s: State, l: nat, id: nat)
    requires l in s.links && id in s.links[l].conn.ids.inflight
  {
    var k := s.links[l].conn.ids.inflight[id].owner;
    && k % IDS == id && HasAttempt(s, l, k)
    && AtAttempt(s, TheAttempt(s, l, k).caller, l, k)
  }

  lemma EntriesOwned(s: State)
    requires Inv(s, Wild)
    ensures forall l, id | l in s.links && id in s.links[l].conn.ids.inflight :: EntryAtWork(s, l, id)
  {
    forall l, id | l in s.links && id in s.links[l].conn.ids.inflight ensures EntryAtWork(s, l, id) {
      EntryOwner(s, l, id);
    }
  }

  lemma IdleIsEmpty(s: State)
    requires forall l, id | l in s.links && id in s.links[l].conn.ids.inflight :: EntryAtWork(s, l, id)
    requires forall t | Acting(s, t) :: Attempting(s.tasks[t]).None?
    ensures forall l | l in s.links :: s.links[l].conn.ids.inflight == map[]
  {
  }

  lemma EntryOwner(s: State, l: nat, id: nat)
    requires Inv(s, Wild) && l in s.links && id in s.links[l].conn.ids.inflight
    ensures EntryAtWork(s, l, id)
  {
    assert ConnGood(s.links[l].conn, Wild);
    MuxSafety.OwnersUnfinished(s.links[l].conn);
    var k := s.links[l].conn.ids.inflight[id].owner;
    assert MuxSafety.Unfinished(s.links[l].conn, k);
    assert AttemptLinked(s, l, k);
  }

  // ---- The pool ----

  /** The forced opens for a target that have connected so far. */
  ghost function ForcedOpens(s: State, server: Server): set<nat> {
    set l | l in s.links && s.links[l].server == server && s.links[l].forced
  }

  /** A target's bucket holds at most 8 connections plus those now in it that come from a
      forced open, and so at most 8 plus the forced opens for that target. */
  lemma BucketBound(es: seq<Event>, server: Server)
    requires Runs(Empty, es)
    ensures var s := After(Empty, es);
            && |Bucket(s, server)| <= MAX_CONNS_PER_TARGET + |ForcedIn(s, server)|
            && |Bucket(s, server)| <= MAX_CONNS_PER_TARGET + |ForcedOpens(s, server)|
  {
    InvRun(es);
    var s := After(Empty, es);
    BucketParts(s, server);
    CardinalityMonotone(ForcedIn(s, server), ForcedOpens(s, server));
  }

  /** After a completed `set_proxy`, at most one pooled connection uses an older proxy. */
  lemma SwapLeavesAtMostOne(es: seq<Event>, l: nat, m: nat)
    requires Runs(Empty, es)
    ensures var s := After(Empty, es);
            Pooled(s, l) && Pooled(s, m) && Stale(s, l) && Stale(s, m) ==> l == m
  {
    InvRun(es);
  }

  /** With replies and removals on time, `prune` retires no connection on which an attempt is unanswered
      while the connection's reader is there to answer it. */
  lemma PruneSafe(es: seq<Event>, t: nat, lags: Mux.Lags)
    requires Runs(Empty, es) && TimelyRun(Empty, es, lags) && lags.reply < IDS && lags.remove < IDS
    requires Enabled(After(Empty, es), DoPrune(t, Retire))
    ensures var s := After(Empty, es);
            var c := s.links[s.tasks[t].prune.link].conn;
            !c.reader.Gone? ==> forall k | k in c.ids.attempts :: !MuxSafety.Unanswered(c, k)
  {
    PacedRun(es, Keeping, lags);
  }

  /** In every run no live connection is lost: it is in its target's bucket, or its opener
      is about to put it there. So whatever leaves the pool is dead. */
  lemma LiveConnectionsKept(es: seq<Event>, l: nat)
    requires Runs(Empty, es) && Alive(After(Empty, es), l)
    ensures Pooled(After(Empty, es), l) || Hatching(After(Empty, es), l)
  {
    InvRun(es);
  }

  /** With replies and removals on time, the reader of a pooled connection leaves for
      idleness only while nobody on the connection is unanswered. */
  lemma IdleSafe(es: seq<Event>, l: nat, lags: Mux.Lags)
    requires Runs(Empty, es) && TimelyRun(Empty, es, lags) && lags.reply < IDS && lags.remove < IDS
    requires Enabled(After(Empty, es), Inside(l, Mux.Flag(Mux.Idle)))
    ensures var c := After(Empty, es).links[l].conn; forall k | k in c.ids.attempts :: !MuxSafety.Unanswered(c, k)
  {
    PacedRun(es, Keeping, lags);
    IdleIsQuiet(After(Empty, es).links[l].conn);
  }

  lemma IdleIsQuiet(c: Mux.Conn)
    requires ConnGood(c, Keeping) && Mux.Enabled(c, Mux.Flag(Mux.Idle))
    ensures forall k | k in c.ids.attempts :: !MuxSafety.Unanswered(c, k)
  {
    EmptyIsQuiet(c);
  }

  // ---- Steps that are always possible ----

  /** A connection nobody has used gives out its first id. */
  lemma FirstEnabled(s: State, t: nat) returns (ticket: nat)
    requires Inv(s, Wild) && Acting(s, t) && s.tasks[t].pc.Allocating?
    ensures Enabled(s, Do(t, First(ticket)))
  {
    var c := s.links[s.tasks[t].pc.link].conn;
    assert ConnGood(c, Wild);
    MuxSafety.OwnersUnfinished(c);
    ticket := ConnIds.IdAvailable(c.ids.inflight.Keys, c.ids.next);
  }
}
