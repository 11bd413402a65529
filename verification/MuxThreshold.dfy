/**
 Exactly how late replies, removals and installations may be.

 Reply routing holds in every run precisely when replies stay below 65536 counter
 steps and removals or installations do. Beyond that the counter has wrapped: a
 late reply goes to whoever has the id by then, and a late removal takes away the
 placeholder of a later attempt, which, if it is late too, installs its sender over
 a third attempt's.
 */
module MuxThreshold {
  import opened Bytes
  import opened Framing
  import opened Inflight
  import opened Mux
  import opened MuxSafety

  /** Some run within the lags leads from one state to the other. */
  ghost predicate Leads(c: Conn, d: Conn, lags: Lags) {
    exists es :: Runs(c, es) && TimelyRun(c, es, lags) && After(c, es) == d
  }

  lemma LeadsStep(c: Conn, e: Event, lags: Lags)
    requires Enabled(c, e) && Timely(c, e, lags)
    ensures Leads(c, Step(c, e), lags)
  {
    var es := [e];
    var d := Step(c, e);
    assert es[0] == e && es[1..] == [];
    assert Runs(d, []) && TimelyRun(d, [], lags) && After(d, []) == d;
    assert Runs(c, es) && TimelyRun(c, es, lags) && After(c, es) == Step(c, e);
  }

  lemma ConcatFront<T>(s: seq<T>, t: seq<T>)
    requires s != []
    ensures s + t != [] && (s + t)[0] == s[0] && (s + t)[1..] == s[1..] + t
  {
  }

  /** A run is its first event and a run from there. */
  lemma RunFront(c: Conn, es: seq<Event>, lags: Lags)
    requires es != [] && Enabled(c, es[0]) && Timely(c, es[0], lags)
    requires Runs(Step(c, es[0]), es[1..]) && TimelyRun(Step(c, es[0]), es[1..], lags)
    ensures Runs(c, es) && TimelyRun(c, es, lags) && After(c, es) == After(Step(c, es[0]), es[1..])
  {
  }

  lemma {:induction false} RunConcat(c: Conn, es: seq<Event>, fs: seq<Event>, lags: Lags)
    requires Runs(c, es) && TimelyRun(c, es, lags)
    requires Runs(After(c, es), fs) && TimelyRun(After(c, es), fs, lags)
    ensures Runs(c, es + fs) && TimelyRun(c, es + fs, lags)
    ensures After(c, es + fs) == After(After(c, es), fs)
    decreases |es|
  {
    if es == [] {
      assert es + fs == fs;
    } else {
      var d, rest := Step(c, es[0]), es[1..];
      ConcatFront(es, fs);
      RunConcat(d, rest, fs, lags);
      RunFront(c, es + fs, lags);
    }
  }

  lemma LeadsTrans(c: Conn, d: Conn, f: Conn, lags: Lags)
    requires Leads(c, d, lags) && Leads(d, f, lags)
    ensures Leads(c, f, lags)
  {
    var es :| Runs(c, es) && TimelyRun(c, es, lags) && After(c, es) == d;
    var fs :| Runs(d, fs) && TimelyRun(d, fs, lags) && After(d, fs) == f;
    RunConcat(c, es, fs, lags);
  }

  /** One more event at the end of a run. */
  lemma Then(c: Conn, d: Conn, e: Event, lags: Lags) returns (f: Conn)
    requires Leads(c, d, lags) && Enabled(d, e) && Timely(d, e, lags)
    ensures f == Step(d, e) && Leads(c, f, lags)
  {
    f := Step(d, e);
    LeadsStep(d, e, lags);
    LeadsTrans(c, d, f, lags);
  }

  lemma LeadsSelf(c: Conn, lags: Lags)
    ensures Leads(c, c, lags)
  {
    assert Runs(c, []) && TimelyRun(c, [], lags) && After(c, []) == c;
  }

  predicate CanWrite(c: Conn) { c.writer.None? && !c.broken }

  /** `d` is `c` with different ids and one more frame, by `k`, on the wire. */
  predicate Posted(c: Conn, d: Conn, k: nat, ids: Ids) {
    && k in c.ids.attempts
    && d.ids == ids
    && d.wire == c.wire + [Sent(k, Outgoing(k, c.ids.attempts[k].query))]
    && d.answers == c.answers && d.reader == c.reader && CanWrite(d)
  }

  lemma UpdateTwice<V>(m: map<nat, V>, k: nat, v: V, w: V)
    ensures m[k := v][k := w] == m[k := w]
  {
  }

  lemma MoveTwice(s: Ids, k: nat, p: Phase, x: Rx, p': Phase, x': Rx)
    requires k in s.attempts
    ensures s.Move(k, p, x).Move(k, p', x') == s.Move(k, p', x')
  {
    UpdateTwice(s.attempts, k, s.attempts[k].(phase := p, rx := x), s.attempts[k].(phase := p', rx := x'));
  }

  /** An attempt with its sender in place writes its frame and waits. */
  lemma Post(c: Conn, k: nat, lags: Lags) returns (d: Conn)
    requires CanWrite(c) && k in c.ids.attempts && c.ids.attempts[k].phase.Ready?
    ensures Leads(c, d, lags)
    ensures Posted(c, d, k, c.ids.Move(k, Waiting, c.ids.attempts[k].rx))
  {
    LeadsSelf(c, lags);
    d := Then(c, c, Do(k, LockWriter), lags);
    d := Then(c, d, Do(k, WriteSome(|c.ids.attempts[k].query| + 2)), lags);
    d := Then(c, d, Do(k, WriteDone), lags);
    d := Then(c, d, Do(k, Touch), lags);
    var rx, full := c.ids.attempts[k].rx, Writing(|c.ids.attempts[k].query| + 2);
    MoveTwice(c.ids, k, Writing(0), rx, full, rx);
    MoveTwice(c.ids, k, full, rx, Written, rx);
    MoveTwice(c.ids, k, Written, rx, Waiting, rx);
  }

  lemma Ask(c: Conn, k: nat, lags: Lags) returns (d: Conn)
    requires CanWrite(c) && k in c.ids.attempts && c.ids.attempts[k].phase.Allocated? && c.ids.Reserved(k)
    ensures Leads(c, d, lags)
    ensures Posted(c, d, k, c.ids.Install(k).Move(k, Waiting, Pending))
  {
    LeadsSelf(c, lags);
    var b := Then(c, c, Install(k), lags);
    d := Post(b, k, lags);
    LeadsTrans(c, b, d, lags);
  }

  /** The frame carries the id of its author. */
  predicate Stamped(f: Sent) { BodyId(f.message) == f.owner % IDS }

  predicate Calm(c: Conn) {
    && CanWrite(c) && c.reader.Reading?
    && |c.ids.inflight| < MAX_INFLIGHT
    && (forall k | k in c.ids.attempts :: k < c.ids.next)
    && (forall j | 0 <= j < |c.wire| :: c.wire[j].owner < c.ids.next && Stamped(c.wire[j]))
    && (forall j | j in c.answers :: j < |c.wire|)
  }

  /** `d` is `c` after `n` more attempts came and went. */
  predicate Grown(c: Conn, d: Conn, n: nat) {
    && Calm(d)
    && d.ids.inflight == c.ids.inflight && d.ids.next == c.ids.next + n
    && d.answers == c.answers
    && c.wire <= d.wire
    && (forall j | |c.wire| <= j < |d.wire| :: d.wire[j].owner >= c.ids.next)
    && (forall k | k in c.ids.attempts :: k in d.ids.attempts && d.ids.attempts[k] == c.ids.attempts[k])
  }

  /** A new attempt `k` has written its frame and waits under its id. */
  predicate Arrived(c: Conn, d: Conn, k: nat, q: Query) {
    && d.ids == Ids(c.ids.inflight[k % IDS := Sender(k)], k + 1, c.ids.attempts[k := Attempt(0, q, Waiting, Pending)])
    && d.wire == c.wire + [Sent(k, Outgoing(k, q))]
    && d.answers == c.answers && d.reader == c.reader && CanWrite(d)
  }

  lemma ArrivedIds(s: Ids, k: nat, q: Query)
    ensures s.Allocate(k, 0, q).Install(k).Move(k, Waiting, Pending)
         == Ids(s.inflight[k % IDS := Sender(k)], k + 1, s.attempts[k := Attempt(0, q, Waiting, Pending)])
  {
    var a := s.Allocate(k, 0, q);
    UpdateTwice(s.inflight, k % IDS, Placeholder(k), Sender(k));
    UpdateTwice(s.attempts, k, Attempt(0, q, Allocated, NoRx), Attempt(0, q, Ready, Pending));
    UpdateTwice(s.attempts, k, Attempt(0, q, Ready, Pending), Attempt(0, q, Waiting, Pending));
  }

  lemma Arrive(c: Conn, q: Query, lags: Lags) returns (d: Conn)
    requires Calm(c) && c.ids.next % IDS !in c.ids.inflight
    ensures Leads(c, d, lags) && Arrived(c, d, c.ids.next, q)
  {
    var k := c.ids.next;
    LeadsSelf(c, lags);
    var b := Then(c, c, Allocate(k, 0, q), lags);
    d := Ask(b, k, lags);
    LeadsTrans(c, b, d, lags);
    ArrivedIds(c.ids, k, q);
  }

  lemma GiveUp(c: Conn, k: nat, lags: Lags) returns (d: Conn)
    requires k in c.ids.attempts && c.ids.attempts[k].phase.Waiting? && c.ids.attempts[k].rx.Pending?
    ensures Leads(c, d, lags)
    ensures d == c.(ids := c.ids.Move(k, Removing(true), NoRx))
  {
    LeadsStep(c, Do(k, TimeOut), lags);
    d := Step(c, Do(k, TimeOut));
  }

  /** The newest attempt removes its own id. */
  lemma Withdraw(c: Conn, k: nat, lags: Lags) returns (d: Conn)
    requires k in c.ids.attempts && c.ids.attempts[k].phase == Removing(true) && !c.ids.attempts[k].rx.Pending?
    requires c.ids.next == k + 1 && k % IDS in c.ids.inflight && c.ids.inflight[k % IDS] == Sender(k)
    ensures Leads(c, d, lags)
    ensures d == c.(ids := Ids(c.ids.inflight - {k % IDS}, c.ids.next,
                               c.ids.attempts[k := c.ids.attempts[k].(phase := Finished(Fatal))]))
  {
    LeadsStep(c, Remove(k), lags);
    d := Step(c, Remove(k));
  }

  lemma GoneAgain(c: Conn, d: Conn, q: Query)
    requires Calm(c) && c.ids.next % IDS !in c.ids.inflight
    requires d.ids == Ids(c.ids.inflight[c.ids.next % IDS := Sender(c.ids.next)] - {c.ids.next % IDS}, c.ids.next + 1,
                          c.ids.attempts[c.ids.next := Attempt(0, q, Finished(Fatal), NoRx)])
    requires d.wire == c.wire + [Sent(c.ids.next, Outgoing(c.ids.next, q))]
    requires d.answers == c.answers && d.reader == c.reader && CanWrite(d)
    ensures Grown(c, d, 1)
  {
    OutgoingId(c.ids.next, q);
    assert d.ids.inflight == c.ids.inflight;
  }

  /** One attempt comes, times out at once and removes its id. */
  lemma Cycle(c: Conn, q: Query, lags: Lags) returns (d: Conn)
    requires Calm(c) && c.ids.next % IDS !in c.ids.inflight
    ensures Leads(c, d, lags) && Grown(c, d, 1)
    ensures d.wire == c.wire + [Sent(c.ids.next, Outgoing(c.ids.next, q))]
  {
    var k := c.ids.next;
    var a := Arrive(c, q, lags);
    var b := GiveUp(a, k, lags);
    LeadsTrans(c, a, b, lags);
    d := Withdraw(b, k, lags);
    LeadsTrans(c, b, d, lags);
    var waiting, left := Attempt(0, q, Waiting, Pending), Attempt(0, q, Removing(true), NoRx);
    UpdateTwice(c.ids.attempts, k, waiting, left);
    UpdateTwice(c.ids.attempts, k, left, Attempt(0, q, Finished(Fatal), NoRx));
    GoneAgain(c, d, q);
  }

  lemma {:induction false} Churn(c: Conn, q: Query, n: nat, lags: Lags) returns (d: Conn)
    requires Calm(c) && forall t | c.ids.next <= t < c.ids.next + n :: t % IDS !in c.ids.inflight
    ensures Leads(c, d, lags) && Grown(c, d, n)
    decreases n
  {
    if n == 0 {
      LeadsSelf(c, lags);
      d := c;
    } else {
      var b := Cycle(c, q, lags);
      d := Churn(b, q, n - 1, lags);
      LeadsTrans(c, b, d, lags);
    }
  }

  /** Attempt `k` returned a reply although nobody answered a frame of its own. */
  ghost predicate Misrouted(c: Conn, k: nat) {
    && k in c.ids.attempts
    && c.ids.attempts[k].phase.Finished? && c.ids.attempts[k].phase.outcome.Ok?
    && forall j | 0 <= j < |c.wire| && j in c.answers :: c.wire[j].owner != k
  }

  /** Attempt `k` has been handed the reply to somebody else's frame. */
  ghost predicate Mishanded(c: Conn, k: nat) {
    && k in c.ids.attempts && c.ids.attempts[k].rx.Got? && |c.ids.attempts[k].rx.body| >= 2
    && forall j | 0 <= j < |c.wire| && j in c.answers :: c.wire[j].owner != k
  }

  lemma DeliverTo(s: Ids, k: nat, id: nat, body: seq<Byte>)
    requires id in s.inflight && s.inflight[id] == Sender(k) && k in s.attempts && s.attempts[k].rx.Pending?
    ensures s.Deliver(id, body).attempts == s.attempts[k := s.attempts[k].(rx := Got(body))]
  {
  }

  /** The reply to frame `j` goes to `k`, who has the id. */
  lemma Mishand(c: Conn, j: nat, k: nat, body: seq<Byte>, lags: Lags) returns (d: Conn)
    requires c.reader.Reading? && j < |c.wire| && j !in c.answers && Stamped(c.wire[j])
    requires |body| >= 2 && BodyId(body) == c.wire[j].owner % IDS && c.ids.Lag(c.wire[j].owner) <= lags.reply
    requires BodyId(body) in c.ids.inflight && c.ids.inflight[BodyId(body)] == Sender(k)
    requires k in c.ids.attempts && c.ids.attempts[k].rx.Pending?
    requires c.wire[j].owner != k && forall i | 0 <= i < |c.wire| && i in c.answers :: c.wire[i].owner != k
    ensures Leads(c, d, lags) && Mishanded(d, k)
    ensures d.ids.attempts[k].phase == c.ids.attempts[k].phase && d.writer == c.writer && d.broken == c.broken
    ensures d.wire == c.wire && d.answers == c.answers[j := body]
  {
    LeadsStep(c, Deliver(body, Some(j)), lags);
    d := Step(c, Deliver(body, Some(j)));
    DeliverTo(c.ids, k, BodyId(body), body);
  }

  lemma TakeWrong(c: Conn, k: nat, lags: Lags) returns (d: Conn)
    requires Mishanded(c, k) && c.ids.attempts[k].phase.Waiting?
    ensures Leads(c, d, lags) && Misrouted(d, k)
  {
    LeadsStep(c, Do(k, TakeReply), lags);
    d := Step(c, Do(k, TakeReply));
    assert d.wire == c.wire && d.answers == c.answers;
  }

  lemma BodyWithId(id: nat) returns (body: seq<Byte>)
    requires id < IDS
    ensures |body| >= 2 && BodyId(body) == id
  {
    body := ToBe16(id);
  }

  /** The first attempt is over, its frame unanswered, and the counter is about to wrap. */
  lemma AboutToWrap(q: Query, lags: Lags) returns (d: Conn)
    ensures Leads(Opened, d, lags)
    ensures Calm(d) && d.ids.next == IDS && d.ids.inflight == map[] && d.answers == map[]
    ensures |d.wire| > 0 && d.wire[0].owner == 0
  {
    var b := Cycle(Opened, q, lags);
    d := Churn(b, q, IDS - 1, lags);
    LeadsTrans(Opened, b, d, lags);
    assert d.wire[0] == b.wire[0];
  }

  /** The next attempt gets the id of frame 0, whose reply is still to come. */
  lemma LateFrom(c: Conn, q: Query, lags: Lags) returns (d: Conn)
    requires Calm(c) && c.ids.inflight == map[] && c.answers == map[] && |c.wire| > 0
    requires c.wire[0].owner % IDS == c.ids.next % IDS && c.wire[0].owner < c.ids.next
    requires c.ids.next - c.wire[0].owner <= lags.reply
    ensures Leads(c, d, lags) && Misrouted(d, c.ids.next)
  {
    var k := c.ids.next;
    var f := Arrive(c, q, lags);
    var body := BodyWithId(k % IDS);
    assert f.wire[0] == c.wire[0] && Stamped(c.wire[0]);
    var g := Mishand(f, 0, k, body, lags);
    LeadsTrans(c, f, g, lags);
    d := TakeWrong(g, k, lags);
    LeadsTrans(c, g, d, lags);
  }

  /** A reply that comes 65536 counter steps late goes to whoever has the id by then. */
  lemma LateReply(q: Query, lags: Lags) returns (d: Conn)
    requires lags.reply >= IDS
    ensures Leads(Opened, d, lags) && Misrouted(d, IDS)
  {
    var c := AboutToWrap(q, lags);
    d := LateFrom(c, q, lags);
    LeadsTrans(Opened, c, d, lags);
  }

  /** An attempt decides to time out just before its reply comes; its id is free
      again, and it has yet to remove it. */
  lemma Abandon(c: Conn, q: Query, lags: Lags) returns (d: Conn)
    requires Calm(c) && c.ids.inflight == map[]
    ensures Leads(c, d, lags)
    ensures Calm(d) && d.ids.inflight == map[] && d.ids.next == c.ids.next + 1
    ensures c.ids.next in d.ids.attempts && d.ids.attempts[c.ids.next].phase == Removing(true)
  {
    var k := c.ids.next;
    var a := Arrive(c, q, lags);
    var b := GiveUp(a, k, lags);
    LeadsTrans(c, a, b, lags);
    OutgoingId(k, q);
    d := LostReply(b, k, |c.wire|, lags);
    LeadsTrans(c, b, d, lags);
  }

  /** The reply finds the sender of an attempt that no longer listens. */
  lemma LostReply(c: Conn, k: nat, j: nat, lags: Lags) returns (d: Conn)
    requires c.reader.Reading? && j < |c.wire| && j !in c.answers && Stamped(c.wire[j])
    requires c.wire[j].owner == k && c.ids.next == k + 1
    requires k in c.ids.attempts && !c.ids.attempts[k].rx.Pending?
    requires k % IDS in c.ids.inflight && c.ids.inflight[k % IDS] == Sender(k)
    ensures Leads(c, d, lags)
    ensures j in d.answers
    ensures d == c.(ids := c.ids.(inflight := c.ids.inflight - {k % IDS}), answers := c.answers[j := d.answers[j]])
  {
    var body := BodyWithId(k % IDS);
    LeadsStep(c, Deliver(body, Some(j)), lags);
    d := Step(c, Deliver(body, Some(j)));
  }

  /** The id is given to a new attempt `c.ids.next`, and the late removal by `b`
      takes away the placeholder that was to protect it. */
  lemma Steal(c: Conn, b: nat, q: Query, lags: Lags) returns (d: Conn)
    requires Calm(c) && c.ids.inflight == map[]
    requires b in c.ids.attempts && c.ids.attempts[b].phase == Removing(true) && b % IDS == c.ids.next % IDS
    requires c.ids.next - b <= lags.remove
    ensures Leads(c, d, lags)
    ensures Calm(d) && d.ids.inflight == map[] && d.ids.next == c.ids.next + 1
    ensures c.ids.next in d.ids.attempts && d.ids.attempts[c.ids.next].phase == Allocated
    ensures forall j | 0 <= j < |d.wire| :: d.wire[j].owner != c.ids.next
  {
    LeadsSelf(c, lags);
    d := Then(c, c, Allocate(c.ids.next, 0, q), lags);
    d := Then(c, d, Remove(b), lags);
    assert d.wire == c.wire && d.answers == c.answers;
  }

  /** `k` installs its sender where another attempt's is. */
  lemma Overlay(c: Conn, k: nat, lags: Lags) returns (d: Conn)
    requires k in c.ids.attempts && c.ids.attempts[k].phase == Allocated && c.ids.Lag(k) <= lags.install
    ensures Leads(c, d, lags)
    ensures d == c.(ids := c.ids.Install(k))
    ensures d.ids.attempts[k].phase == Ready && d.ids.attempts[k].rx == Pending
    ensures d.ids.inflight == c.ids.inflight[k % IDS := Sender(k)] && d.ids.next == c.ids.next
  {
    LeadsStep(c, Install(k), lags);
    d := Step(c, Install(k));
  }

  /** A third attempt gets the id too; `k` installs its sender over the third's
      and receives the third's reply. */
  lemma Clash(c: Conn, k: nat, q: Query, lags: Lags) returns (d: Conn)
    requires Calm(c) && c.ids.inflight == map[]
    requires k in c.ids.attempts && c.ids.attempts[k].phase == Allocated && k % IDS == c.ids.next % IDS
    requires c.ids.next - k <= lags.install && forall j | 0 <= j < |c.wire| :: c.wire[j].owner != k
    ensures Leads(c, d, lags) && Mishanded(d, k) && d.ids.attempts[k].phase.Ready?
    ensures CanWrite(d) && |d.wire| !in d.answers
  {
    var m := c.ids.next;
    var e := Arrive(c, q, lags);
    var f := Overlay(e, k, lags);
    LeadsTrans(c, e, f, lags);
    var body := BodyWithId(m % IDS);
    OutgoingId(m, q);
    assert f.wire[|c.wire|].owner == m;
    d := Mishand(f, |c.wire|, k, body, lags);
    LeadsTrans(c, f, d, lags);
  }

  lemma Finish(c: Conn, k: nat, lags: Lags) returns (d: Conn)
    requires Mishanded(c, k) && c.ids.attempts[k].phase.Ready? && CanWrite(c) && |c.wire| !in c.answers
    ensures Leads(c, d, lags) && Misrouted(d, k)
  {
    var h := Post(c, k, lags);
    d := TakeWrong(h, k, lags);
    LeadsTrans(c, h, d, lags);
  }

  lemma WrapsTo(k: nat)
    ensures (k + IDS) % IDS == k % IDS
  {
  }

  /** An attempt is abandoned, and the counter comes around to its id again. */
  lemma AbandonAndWrap(c: Conn, q: Query, lags: Lags) returns (d: Conn)
    requires Calm(c) && c.ids.inflight == map[]
    ensures Leads(c, d, lags)
    ensures Calm(d) && d.ids.inflight == map[] && d.ids.next == c.ids.next + IDS
    ensures c.ids.next in d.ids.attempts && d.ids.attempts[c.ids.next].phase == Removing(true)
  {
    var a := Abandon(c, q, lags);
    d := Churn(a, q, IDS - 1, lags);
    LeadsTrans(c, a, d, lags);
  }

  /** The abandoned attempt's late removal, one wrap-around after it was given its id. */
  lemma StaleFrom(c: Conn, q: Query, lags: Lags) returns (d: Conn)
    requires lags.remove >= IDS && Calm(c) && c.ids.inflight == map[]
    ensures Leads(c, d, lags)
    ensures Calm(d) && d.ids.inflight == map[] && d.ids.next == c.ids.next + IDS + 1
    ensures c.ids.next + IDS in d.ids.attempts && d.ids.attempts[c.ids.next + IDS].phase == Allocated
    ensures forall j | 0 <= j < |d.wire| :: d.wire[j].owner != c.ids.next + IDS
  {
    var b := AbandonAndWrap(c, q, lags);
    WrapsTo(c.ids.next);
    d := Steal(b, c.ids.next, q, lags);
    LeadsTrans(c, b, d, lags);
  }

  /** A removal 65536 counter steps late undoes the protection of another attempt's id;
      that attempt installs its sender as late, over a third attempt's. */
  lemma LateRemoval(q: Query, lags: Lags) returns (d: Conn)
    requires lags.remove >= IDS && lags.install >= IDS
    ensures Leads(Opened, d, lags) && Misrouted(d, IDS)
  {
    var c := StaleFrom(Opened, q, lags);
    d := WrapAgain(c, IDS, q, lags);
    LeadsTrans(Opened, c, d, lags);
  }

  /** Once more the counter comes around to the id of `k`, which has yet to install its sender. */
  lemma ComeAround(c: Conn, k: nat, q: Query, lags: Lags) returns (d: Conn)
    requires Calm(c) && c.ids.inflight == map[] && c.ids.next == k + 1
    requires k in c.ids.attempts && c.ids.attempts[k].phase == Allocated
    requires forall j | 0 <= j < |c.wire| :: c.wire[j].owner != k
    ensures Leads(c, d, lags) && Calm(d) && d.ids.inflight == map[] && d.ids.next == k + IDS
    ensures k in d.ids.attempts && d.ids.attempts[k].phase == Allocated
    ensures forall j | 0 <= j < |d.wire| :: d.wire[j].owner != k
  {
    d := Churn(c, q, IDS - 1, lags);
    forall j | 0 <= j < |d.wire| ensures d.wire[j].owner != k {
      if j < |c.wire| { assert d.wire[j] == c.wire[j]; }
    }
  }

  lemma WrapAgain(c: Conn, k: nat, q: Query, lags: Lags) returns (d: Conn)
    requires lags.install >= IDS && Calm(c) && c.ids.inflight == map[] && c.ids.next == k + 1
    requires k in c.ids.attempts && c.ids.attempts[k].phase == Allocated
    requires forall j | 0 <= j < |c.wire| :: c.wire[j].owner != k
    ensures Leads(c, d, lags) && Misrouted(d, k)
  {
    var e := ComeAround(c, k, q, lags);
    WrapsTo(k);
    var f := Clash(e, k, q, lags);
    LeadsTrans(c, e, f, lags);
    d := Finish(f, k, lags);
    LeadsTrans(c, f, d, lags);
  }

  /** Every run within the lags returns to each attempt the reply to its own query. */
  ghost predicate AlwaysRouted(lags: Lags) {
    forall es | Runs(Opened, es) && TimelyRun(Opened, es, lags) :: AllOwnReplies(After(Opened, es))
  }

  lemma Refuted(d: Conn, k: nat, lags: Lags)
    requires Leads(Opened, d, lags) && Misrouted(d, k)
    ensures !AlwaysRouted(lags)
  {
    var es :| Runs(Opened, es) && TimelyRun(Opened, es, lags) && After(Opened, es) == d;
    assert !OwnReply(d, k, d.ids.attempts[k].phase.outcome.reply);
    assert !AllOwnReplies(d);
  }

  /** The exact bound: replies are routed correctly in every run if and only if replies
      are fewer than 65536 counter steps late, and removals or installations are too. */
  lemma RoutingThreshold(lags: Lags)
    ensures AlwaysRouted(lags) <==> lags.reply < IDS && (lags.remove < IDS || lags.install < IDS)
  {
    var q: Query := [0, 0, 0, 0, 0, 0, 0, 0, 0, 0, 0, 0];
    if lags.reply >= IDS {
      var d := LateReply(q, lags);
      Refuted(d, IDS, lags);
    } else if lags.remove >= IDS && lags.install >= IDS {
      var d := LateRemoval(q, lags);
      Refuted(d, IDS, lags);
    } else {
      forall es | Runs(Opened, es) && TimelyRun(Opened, es, lags) ensures AllOwnReplies(After(Opened, es)) {
        ReplyRouting(es, lags);
      }
    }
  }

  // ---- Keeping the entries ----

  /** In every run within the lags, until the reader clears the map, an empty map means
      that nobody is unanswered. */
  ghost predicate AlwaysKept(lags: Lags) {
    forall es | Runs(Opened, es) && TimelyRun(Opened, es, lags) :: Kept(After(Opened, es))
  }

  ghost predicate Kept(c: Conn) {
    !c.reader.Gone? && c.ids.inflight == map[] ==> forall k | k in c.ids.attempts :: !Unanswered(c, k)
  }

  /** A reply 65536 counter steps late takes away the placeholder of the attempt that has
      the id by then. */
  lemma LateReplySteals(c: Conn, q: Query, lags: Lags) returns (d: Conn)
    requires Calm(c) && c.ids.inflight == map[] && c.answers == map[] && |c.wire| > 0
    requires c.wire[0].owner % IDS == c.ids.next % IDS && c.ids.next - c.wire[0].owner <= lags.reply
    ensures Leads(c, d, lags) && d.reader.Reading? && d.ids.inflight == map[]
    ensures c.ids.next in d.ids.attempts && d.ids.attempts[c.ids.next].phase == Allocated
  {
    var k := c.ids.next;
    var body := BodyWithId(k % IDS);
    LeadsSelf(c, lags);
    assert Stamped(c.wire[0]);
    d := Then(c, c, Allocate(k, 0, q), lags);
    d := Then(c, d, Deliver(body, Some(0)), lags);
  }

  lemma NotKept(d: Conn, k: nat, lags: Lags)
    requires Leads(Opened, d, lags) && !d.reader.Gone? && d.ids.inflight == map[]
    requires k in d.ids.attempts && d.ids.attempts[k].phase == Allocated
    ensures !AlwaysKept(lags)
  {
    var es :| Runs(Opened, es) && TimelyRun(Opened, es, lags) && After(Opened, es) == d;
    assert Unanswered(d, k) && !Kept(d);
  }

  /** The exact bound for keeping one's entry: replies and removals are both fewer than
      65536 counter steps late. Installations do not matter. */
  lemma KeepingThreshold(lags: Lags)
    ensures AlwaysKept(lags) <==> lags.reply < IDS && lags.remove < IDS
  {
    var q: Query := [0, 0, 0, 0, 0, 0, 0, 0, 0, 0, 0, 0];
    if lags.reply >= IDS {
      var c := AboutToWrap(q, lags);
      var d := LateReplySteals(c, q, lags);
      LeadsTrans(Opened, c, d, lags);
      NotKept(d, IDS, lags);
    } else if lags.remove >= IDS {
      var d := StaleFrom(Opened, q, lags);
      NotKept(d, IDS, lags);
    } else {
      forall es | Runs(Opened, es) && TimelyRun(Opened, es, lags) ensures Kept(After(Opened, es)) {
        RoutedRun(Opened, es, lags);
        if !After(Opened, es).reader.Gone? { UnansweredInMap(After(Opened, es)); }
      }
    }
  }
}
