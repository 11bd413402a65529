/** Attempts on a connection whose reader has gone. */
module MuxClosing {
  import opened Bytes
  import opened Framing
  import opened Inflight
  import opened Mux
  import opened MuxSafety
  import opened MuxThreshold

  // ---- Every run: who waits has its sender in the map ----

  /** The sender under the attempt's id is the attempt's own. */
  predicate HasSender(s: Ids, k: nat) { k % IDS in s.inflight && s.inflight[k % IDS] == Sender(k) }

  /** Who has installed its sender has a receiver, and as long as nothing came through it
      the sender is in the map. */
  predicate Connected(s: Ids) {
    forall k | k in s.attempts ::
      && (s.attempts[k].rx.Pending? ==> HasSender(s, k))
      && (Receiving(s.attempts[k].phase) ==> !s.attempts[k].rx.NoRx?)
  }

  lemma ConnectedIds(s: Ids, k: nat, ticket: nat, caller: nat, query: Query, outcome: Outcome)
    requires Connected(s)
    ensures s.Vacant(ticket) ==> Connected(s.Allocate(ticket, caller, query))
    ensures k in s.attempts ==> Connected(s.Install(k)) && Connected(s.Remove(k, outcome))
  {
  }

  lemma ConnectedRest(s: Ids, k: nat, phase: Phase, rx: Rx, id: nat, body: seq<Byte>)
    requires Connected(s)
    ensures Connected(s.Deliver(id, body)) && Connected(s.Clear())
    ensures k in s.attempts && (rx.Pending? ==> s.attempts[k].rx.Pending?) && (Receiving(phase) ==> !rx.NoRx?) ==>
              Connected(s.Move(k, phase, rx))
  {
  }

  lemma ConnectedStep(c: Conn, e: Event)
    requires Connected(c.ids) && Enabled(c, e)
    ensures Connected(Step(c, e).ids)
  {
    match e
    case Allocate(ticket, caller, query) => ConnectedIds(c.ids, 0, ticket, caller, query, Fatal);
    case Install(k) => ConnectedIds(c.ids, k, 0, 0, c.ids.attempts[k].query, Fatal);
    case Remove(k) =>
      ConnectedIds(c.ids, k, 0, 0, c.ids.attempts[k].query, if c.ids.attempts[k].phase.fatal then Fatal else Retry);
    case Do(k, act) =>
      ConnectedRest(c.ids, k, NextPhase(c.ids.attempts[k], act), NextRx(c.ids.attempts[k], act), 0, []);
    case Deliver(body, _) => ConnectedRest(c.ids, 0, Ready, NoRx, BodyId(body), body);
    case Clear => ConnectedRest(c.ids, 0, Ready, NoRx, 0, []);
    case Flag(_) =>
  }

  lemma {:induction false} ConnectedRun(c: Conn, es: seq<Event>)
    requires Connected(c.ids) && Owned(c.ids) && Runs(c, es)
    ensures Connected(After(c, es).ids) && Owned(After(c, es).ids)
    decreases |es|
  {
    if es != [] {
      ConnectedStep(c, es[0]);
      OwnedStep(c, es[0]);
      ConnectedRun(Step(c, es[0]), es[1..]);
    }
  }

  // ---- After the clear ----

  /** Whether the attempt's sender stands under its id after the event, if `b` says whether
      it did before: an installation or removal under the id decides anew. */
  predicate Next(b: bool, e: Event, k: nat) {
    if (e.Install? || e.Remove?) && e.k % IDS == k % IDS then e == Install(k) else b
  }

  /** The same over a sequence of events: of those that install or remove under the id of
      attempt `k`, the last is the installation by `k`. */
  predicate Stands(b: bool, es: seq<Event>, k: nat)
    decreases |es|
  {
    if es == [] then b else Stands(Next(b, es[0], k), es[1..], k)
  }

  ghost predicate Closed(c: Conn) { c.reader.Gone? && Connected(c.ids) && Owned(c.ids) }

  lemma ClosedStep(c: Conn, e: Event)
    requires Closed(c) && Enabled(c, e)
    ensures Closed(Step(c, e))
  {
    ConnectedStep(c, e);
    OwnedStep(c, e);
  }

  /** What the map says of attempt `k` after each change to it. */
  lemma SenderIds(s: Ids, j: nat, k: nat, ticket: nat, caller: nat, query: Query, outcome: Outcome)
    ensures s.Vacant(ticket) ==> HasSender(s.Allocate(ticket, caller, query), k) == HasSender(s, k)
    ensures j in s.attempts ==> HasSender(s.Install(j), k) == (if j % IDS == k % IDS then j == k else HasSender(s, k))
    ensures j in s.attempts ==> HasSender(s.Remove(j, outcome), k) == (j % IDS != k % IDS && HasSender(s, k))
  {
  }

  lemma NextSender(c: Conn, e: Event, k: nat)
    requires Closed(c) && Enabled(c, e)
    ensures HasSender(Step(c, e).ids, k) == Next(HasSender(c.ids, k), e, k)
  {
    if e.Allocate? {
      SenderIds(c.ids, 0, k, e.ticket, e.caller, e.query, Fatal);
    } else if e.Install? {
      SenderIds(c.ids, e.k, k, 0, 0, c.ids.attempts[e.k].query, Fatal);
    } else if e.Remove? {
      var outcome := if c.ids.attempts[e.k].phase.fatal then Fatal else Retry;
      SenderIds(c.ids, e.k, k, 0, 0, c.ids.attempts[e.k].query, outcome);
    }
  }

  lemma {:induction false} SenderStands(c: Conn, es: seq<Event>, k: nat)
    requires Closed(c) && Runs(c, es)
    ensures Closed(After(c, es)) && HasSender(After(c, es).ids, k) == Stands(HasSender(c.ids, k), es, k)
    decreases |es|
  {
    if es != [] {
      ClosedStep(c, es[0]);
      NextSender(c, es[0], k);
      SenderStands(Step(c, es[0]), es[1..], k);
    }
  }

  /** An attempt that listens is pending exactly while its sender stands. */
  lemma PendingStands(c: Conn, k: nat)
    requires Closed(c) && k in c.ids.attempts && Receiving(c.ids.attempts[k].phase)
    ensures c.ids.attempts[k].rx.Pending? <==> HasSender(c.ids, k)
  {
    if HasSender(c.ids, k) { assert SlotOwned(c.ids, k % IDS); }
  }

  /** The attempt has decided to fail for good, not to be retried. */
  predicate GaveUp(c: Conn, k: nat) {
    k in c.ids.attempts && (c.ids.attempts[k].phase == Removing(true) || c.ids.attempts[k].phase == Finished(Fatal))
  }

  lemma GivesUp(c: Conn, e: Event, k: nat)
    requires Closed(c) && Enabled(c, e) && GaveUp(Step(c, e), k) && !GaveUp(c, k)
    ensures e == Do(k, TimeOut) && HasSender(c.ids, k)
  {
    if e.Do? && e.k == k { GivesUpAct(c, k, e.act); } else { OthersKeepPhase(c, e); }
  }

  lemma GivesUpAct(c: Conn, k: nat, act: Act)
    requires Connected(c.ids) && k in c.ids.attempts && ActEnabled(c, k, act)
    requires GaveUp(Acted(c, k, act), k) && !GaveUp(c, k)
    ensures act.TimeOut? && HasSender(c.ids, k)
  {
  }

  /** The attempt times out in these events, at a moment when its sender stands. */
  ghost predicate TimesOut(b: bool, es: seq<Event>, k: nat) {
    exists i :: 0 <= i < |es| && es[i] == Do(k, TimeOut) && Stands(b, es[..i], k)
  }

  lemma TimesOutLater(b: bool, es: seq<Event>, k: nat)
    requires es != [] && TimesOut(Next(b, es[0], k), es[1..], k)
    ensures TimesOut(b, es, k)
  {
    var i :| 0 <= i < |es[1..]| && es[1..][i] == Do(k, TimeOut) && Stands(Next(b, es[0], k), es[1..][..i], k);
    assert es[..i + 1][1..] == es[1..][..i];
    assert es[i + 1] == Do(k, TimeOut) && Stands(b, es[..i + 1], k);
  }

  lemma TimesOutNow(es: seq<Event>, k: nat)
    requires es != [] && es[0] == Do(k, TimeOut)
    ensures TimesOut(true, es, k)
  {
    assert es[..0] == [] && Stands(true, es[..0], k);
  }

  lemma {:induction false} GaveUpRun(c: Conn, es: seq<Event>, k: nat)
    requires Closed(c) && Runs(c, es) && GaveUp(After(c, es), k) && !GaveUp(c, k)
    ensures TimesOut(HasSender(c.ids, k), es, k)
    decreases |es|
  {
    if es != [] {
      ClosedStep(c, es[0]);
      NextSender(c, es[0], k);
      if GaveUp(Step(c, es[0]), k) {
        GivesUp(c, es[0], k);
        TimesOutNow(es, k);
      } else {
        GaveUpRun(Step(c, es[0]), es[1..], k);
        TimesOutLater(HasSender(c.ids, k), es, k);
      }
    }
  }

  lemma ClosedAfterClear(b: Conn, k: nat)
    requires Connected(b.ids) && Owned(b.ids) && Enabled(b, Clear)
    ensures Closed(Step(b, Clear)) && !HasSender(Step(b, Clear).ids, k)
  {
    ConnectedStep(b, Clear);
    OwnedStep(b, Clear);
  }

  /** What a waiting attempt can do, whose sender stands or not. */
  lemma WaitingActs(d: Conn, k: nat)
    requires Closed(d) && k in d.ids.attempts && d.ids.attempts[k].phase.Waiting?
    ensures Enabled(d, Do(k, TimeOut)) <==> HasSender(d.ids, k)
    ensures Enabled(d, Do(k, SeeDropped)) <==> !d.ids.attempts[k].rx.Got? && !HasSender(d.ids, k)
  {
    PendingStands(d, k);
  }

  /** Once the reader has cleared the map, a waiting attempt can only time out, and so fail
      for good, if and only if of all installations and removals under its id since then
      its own installation is the last; otherwise it has its reply or sees its sender
      dropped, and is retried. Whoever comes to fail for good timed out at such a moment. */
  lemma FatalAfterClear(es: seq<Event>, fs: seq<Event>, k: nat)
    requires Runs(Opened, es) && Enabled(After(Opened, es), Clear) && Runs(Step(After(Opened, es), Clear), fs)
    requires k in After(Step(After(Opened, es), Clear), fs).ids.attempts
    ensures var c := Step(After(Opened, es), Clear);
            var d := After(c, fs);
            var x := d.ids.attempts[k];
            && (Receiving(x.phase) ==> (x.rx.Pending? <==> Stands(false, fs, k)))
            && (x.phase.Waiting? ==> (Enabled(d, Do(k, TimeOut)) <==> Stands(false, fs, k)))
            && (x.phase.Waiting? ==> (Enabled(d, Do(k, SeeDropped)) <==> !x.rx.Got? && !Stands(false, fs, k)))
            && (GaveUp(d, k) ==> GaveUp(c, k) || TimesOut(false, fs, k))
  {
    ConnectedRun(Opened, es);
    ClosedAfterClear(After(Opened, es), k);
    var c := Step(After(Opened, es), Clear);
    SenderStands(c, fs, k);
    var d := After(c, fs);
    if Receiving(d.ids.attempts[k].phase) { PendingStands(d, k); }
    if d.ids.attempts[k].phase.Waiting? { WaitingActs(d, k); }
    if GaveUp(d, k) && !GaveUp(c, k) { GaveUpRun(c, fs, k); }
  }

  // ---- A run in which it happens ----

  /** An attempt gets its id, and the reader goes before the attempt has installed its sender. */
  lemma AllocateThenClear(q: Query, lags: Lags) returns (d: Conn)
    ensures Leads(Opened, d, lags) && d.reader.Gone? && CanWrite(d) && d.ids.next == 1
    ensures 0 in d.ids.attempts && d.ids.attempts[0].phase == Allocated
  {
    LeadsSelf(Opened, lags);
    d := Then(Opened, Opened, Allocate(0, 0, q), lags);
    d := Then(Opened, d, Flag(ReadError), lags);
    d := Then(Opened, d, Flag(MarkDead), lags);
    d := Then(Opened, d, Clear, lags);
  }

  /** It installs its sender, writes, and waits for a reply that nobody will deliver. */
  lemma WaitInVain(c: Conn, lags: Lags) returns (d: Conn)
    requires c.reader.Gone? && CanWrite(c) && c.ids.next == 1
    requires 0 in c.ids.attempts && c.ids.attempts[0].phase == Allocated
    ensures Leads(c, d, lags) && d.reader.Gone?
    ensures 0 in d.ids.attempts && d.ids.attempts[0].phase == Waiting && d.ids.attempts[0].rx == Pending
  {
    var b := Overlay(c, 0, lags);
    d := Post(b, 0, lags);
    LeadsTrans(c, b, d, lags);
  }

  /** It times out and removes its id. */
  lemma FailForGood(c: Conn, lags: Lags) returns (d: Conn)
    requires c.reader.Gone?
    requires 0 in c.ids.attempts && c.ids.attempts[0].phase == Waiting && c.ids.attempts[0].rx == Pending
    ensures Leads(c, d, lags) && d.reader.Gone?
    ensures 0 in d.ids.attempts && d.ids.attempts[0].phase == Finished(Fatal)
  {
    var b := GiveUp(c, 0, lags);
    d := Then(c, b, Remove(0), lags);
  }

  /** Within any lags, even none, an attempt that installs its sender after the clear may
      fail for good. */
  lemma LateInstallFails(q: Query, lags: Lags) returns (d: Conn)
    ensures Leads(Opened, d, lags) && d.reader.Gone?
    ensures 0 in d.ids.attempts && d.ids.attempts[0].phase == Finished(Fatal)
  {
    var b := AllocateThenClear(q, lags);
    var c := WaitInVain(b, lags);
    LeadsTrans(Opened, b, c, lags);
    d := FailForGood(c, lags);
    LeadsTrans(Opened, c, d, lags);
  }
}
