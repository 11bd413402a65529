/** What every run of a pooled DNS connection keeps. */
module MuxSafety {
  import opened Bytes
  import opened Framing
  import opened Inflight
  import opened Mux

  // ---- Every run: ownership of the ids ----

  lemma OwnedStep(c: Conn, e: Event)
    requires Owned(c.ids) && Enabled(c, e)
    ensures Owned(Step(c, e).ids)
  {
    match e
    case Allocate(ticket, caller, query) => OwnedAllocate(c.ids, ticket, caller, query);
    case Install(k) => OwnedInstall(c.ids, k);
    case Do(k, act) => OwnedMove(c.ids, k, NextPhase(c.ids.attempts[k], act), NextRx(c.ids.attempts[k], act));
    case Remove(k) => OwnedRemove(c.ids, k, if c.ids.attempts[k].phase.fatal then Fatal else Retry);
    case Deliver(body, _) => OwnedDeliver(c.ids, BodyId(body), body);
    case Clear =>
    case Flag(_) =>
  }

  // ---- Every run: the bytes on the wire ----

  /** The attempt is writing, and how far it got. */
  predicate WritingAt(s: Ids, k: nat) { k in s.attempts && s.attempts[k].phase.Writing? }

  ghost predicate WriterHeld(c: Conn) {
    && (forall k | WritingAt(c.ids, k) ::
          c.writer == Some(k) && c.ids.attempts[k].phase.sent <= |c.ids.attempts[k].query| + 2)
    && (c.writer.Some? ==> WritingAt(c.ids, c.writer.value))
  }

  function Messages(wire: seq<Sent>): (r: seq<Message>)
    ensures |r| == |wire|
    ensures forall j | 0 <= j < |wire| :: r[j] == wire[j].message
  {
    seq(|wire|, i requires 0 <= i < |wire| => wire[i].message)
  }

  /** The part of its frame that the holder of the writer has put on the stream,
      none of it once the frame is complete. */
  function Partial(c: Conn): seq<Byte> {
    if c.writer.Some? && WritingAt(c.ids, c.writer.value) then
      PartialFrame(c.writer.value, c.ids.attempts[c.writer.value].query, c.ids.attempts[c.writer.value].phase.sent)
    else []
  }

  function PartialFrame(k: nat, query: Query, sent: nat): seq<Byte> {
    if sent < |query| + 2 then Frame(Outgoing(k, query))[..sent] else []
  }

  /** The bytes after the complete frames. */
  predicate Tail(c: Conn, tail: seq<Byte>) {
    if c.broken then Incomplete(tail) else tail == Partial(c)
  }

  /** The stream is the complete frames in order and then at most one partial
      frame, that of the current holder of the writer unless a write failed. */
  ghost predicate Framed(c: Conn) {
    && WriterHeld(c)
    && Stream(Messages(c.wire)) <= c.stream
    && Tail(c, c.stream[|Stream(Messages(c.wire))|..])
  }

  /** The same attempts are writing, and got as far. */
  ghost predicate SameWriters(s: Ids, d: Ids) {
    && (forall k :: WritingAt(d, k) <==> WritingAt(s, k))
    && (forall k | WritingAt(s, k) :: d.attempts[k].phase == s.attempts[k].phase)
    && (forall k | WritingAt(s, k) :: d.attempts[k].query == s.attempts[k].query)
  }

  /** Nothing about writing changes between the two states. */
  ghost predicate SameWriting(c: Conn, d: Conn) {
    && d.writer == c.writer && d.stream == c.stream && d.wire == c.wire && d.broken == c.broken
    && SameWriters(c.ids, d.ids)
  }

  lemma FramedSame(c: Conn, d: Conn)
    requires Framed(c) && SameWriting(c, d)
    ensures Framed(d)
  {
  }

  lemma SameWritersMap(s: Ids, k: nat, ticket: nat, caller: nat, query: Query, outcome: Outcome)
    requires forall j | j in s.attempts :: j < s.next
    ensures ticket >= s.next ==> SameWriters(s, s.Allocate(ticket, caller, query))
    ensures k in s.attempts && s.attempts[k].phase.Allocated? ==> SameWriters(s, s.Install(k))
    ensures k in s.attempts && s.attempts[k].phase.Removing? ==> SameWriters(s, s.Remove(k, outcome))
    ensures SameWriters(s, s.Clear())
  {
  }

  lemma SameWritersRest(s: Ids, k: nat, phase: Phase, rx: Rx, body: seq<Byte>)
    ensures SameWriters(s, s.Deliver(k, body))
    ensures k in s.attempts && !s.attempts[k].phase.Writing? && !phase.Writing? ==> SameWriters(s, s.Move(k, phase, rx))
  {
  }

  predicate WriteAct(act: Act) { act.LockWriter? || act.WriteSome? || act.WriteDone? || act.WriteFail? }

  lemma OtherSame(c: Conn, e: Event)
    requires Enabled(c, e) && (e.Do? ==> !WriteAct(e.act)) && (forall k | k in c.ids.attempts :: k < c.ids.next)
    ensures SameWriting(c, Step(c, e))
  {
    match e
    case Allocate(ticket, caller, query) => SameWritersMap(c.ids, 0, ticket, caller, query, Fatal);
    case Install(k) => SameWritersMap(c.ids, k, 0, 0, c.ids.attempts[k].query, Fatal);
    case Do(k, act) => SameWritersRest(c.ids, k, NextPhase(c.ids.attempts[k], act), NextRx(c.ids.attempts[k], act), []);
    case Remove(k) =>
      SameWritersMap(c.ids, k, 0, 0, c.ids.attempts[k].query, if c.ids.attempts[k].phase.fatal then Fatal else Retry);
    case Deliver(body, _) => SameWritersRest(c.ids, BodyId(body), Ready, NoRx, body);
    case Clear =>
    case Flag(_) =>
  }

  lemma AppendMessage(wire: seq<Sent>, s: Sent)
    ensures Stream(Messages(wire + [s])) == Stream(Messages(wire)) + Frame(s.message)
  {
    assert Messages(wire + [s])[..|wire|] == Messages(wire);
  }

  lemma Chunk(stream: seq<Byte>, head: seq<Byte>, frame: seq<Byte>, from: nat, to: nat)
    requires from <= to <= |frame| && head <= stream && stream[|head|..] == frame[..from]
    ensures var r := stream + frame[from..to];
            && r == head + frame[..to] && head <= r && r[|head|..] == frame[..to]
            && (to == |frame| ==> r == head + frame && r[|head + frame|..] == [])
  {
  }

  lemma WriterHeldAct(c: Conn, k: nat, act: Act)
    requires WriterHeld(c) && k in c.ids.attempts && ActEnabled(c, k, act) && WriteAct(act)
    ensures WriterHeld(Acted(c, k, act))
  {
    var d := Acted(c, k, act);
    assert act.LockWriter? || WritingAt(c.ids, k);
    assert forall j | j != k :: WritingAt(d.ids, j) <==> WritingAt(c.ids, j);
  }

  lemma FramedWrite(c: Conn, k: nat, n: nat)
    requires Framed(c) && k in c.ids.attempts && ActEnabled(c, k, WriteSome(n))
    ensures Framed(Acted(c, k, WriteSome(n)))
  {
    var x := c.ids.attempts[k];
    var head, frame := Stream(Messages(c.wire)), Frame(Outgoing(k, x.query));
    var d := Acted(c, k, WriteSome(n));
    assert WritingAt(c.ids, k) && WritingAt(d.ids, k);
    WriterHeldAct(c, k, WriteSome(n));
    assert Partial(c) == PartialFrame(k, x.query, x.phase.sent);
    assert Partial(d) == PartialFrame(k, x.query, x.phase.sent + n);
    Chunk(c.stream, head, frame, x.phase.sent, x.phase.sent + n);
    if x.phase.sent + n == |frame| {
      AppendMessage(c.wire, Sent(k, Outgoing(k, x.query)));
      assert Stream(Messages(d.wire)) == head + frame;
    } else {
      assert d.wire == c.wire;
    }
  }

  lemma FramedWriter(c: Conn, k: nat, act: Act)
    requires Framed(c) && k in c.ids.attempts && ActEnabled(c, k, act)
    requires act.LockWriter? || act.WriteDone? || act.WriteFail?
    ensures Framed(Acted(c, k, act))
  {
    var x, d := c.ids.attempts[k], Acted(c, k, act);
    WriterHeldAct(c, k, act);
    if !act.LockWriter? {
      assert WritingAt(c.ids, k);
      assert Partial(c) == PartialFrame(k, x.query, x.phase.sent);
      if act.WriteFail? {
        CutFrameIncomplete(Outgoing(k, x.query), x.phase.sent);
      }
    }
  }

  lemma FramedStep(c: Conn, e: Event)
    requires Framed(c) && Owned(c.ids) && Enabled(c, e)
    ensures Framed(Step(c, e))
  {
    if e.Do? && e.act.WriteSome? {
      FramedWrite(c, e.k, e.act.n);
    } else if e.Do? && WriteAct(e.act) {
      FramedWriter(c, e.k, e.act);
    } else {
      OtherSame(c, e);
      FramedSame(c, Step(c, e));
    }
  }

  // ---- Every run: who wrote the frames ----

  /** The attempt's frame is complete. */
  predicate FrameOut(x: Attempt) {
    !x.phase.Allocated? && !x.phase.Ready? && (x.phase.Writing? ==> x.phase.sent == |x.query| + 2)
  }

  predicate Authored(s: Ids, f: Sent) {
    && f.owner in s.attempts
    && f.message == Outgoing(f.owner, s.attempts[f.owner].query)
    && FrameOut(s.attempts[f.owner])
  }

  ghost predicate WireOk(c: Conn) {
    forall j | 0 <= j < |c.wire| :: Authored(c.ids, c.wire[j])
  }

  /** No attempt loses its frame or its query. */
  predicate Forward(s: Ids, d: Ids) {
    forall k | k in s.attempts ::
      && k in d.attempts
      && d.attempts[k].query == s.attempts[k].query
      && d.attempts[k].caller == s.attempts[k].caller
      && (FrameOut(s.attempts[k]) ==> FrameOut(d.attempts[k]))
  }

  lemma ForwardDo(c: Conn, k: nat, act: Act)
    requires k in c.ids.attempts && ActEnabled(c, k, act)
    ensures Forward(c.ids, Acted(c, k, act).ids)
  {
  }

  lemma ForwardMap(s: Ids, k: nat, ticket: nat, caller: nat, query: Query)
    requires forall j | j in s.attempts :: j < s.next
    ensures ticket >= s.next ==> Forward(s, s.Allocate(ticket, caller, query))
    ensures k in s.attempts && s.attempts[k].phase.Allocated? ==> Forward(s, s.Install(k))
    ensures Forward(s, s.Clear())
  {
  }

  lemma ForwardRest(s: Ids, k: nat, outcome: Outcome, id: nat, body: seq<Byte>)
    ensures k in s.attempts && s.attempts[k].phase.Removing? ==> Forward(s, s.Remove(k, outcome))
    ensures Forward(s, s.Deliver(id, body))
  {
  }

  lemma ForwardStep(c: Conn, e: Event)
    requires Enabled(c, e) && (forall k | k in c.ids.attempts :: k < c.ids.next)
    ensures Forward(c.ids, Step(c, e).ids)
  {
    match e
    case Allocate(ticket, caller, query) => ForwardMap(c.ids, 0, ticket, caller, query);
    case Install(k) => ForwardMap(c.ids, k, 0, 0, c.ids.attempts[k].query);
    case Do(k, act) => ForwardDo(c, k, act);
    case Remove(k) => ForwardRest(c.ids, k, if c.ids.attempts[k].phase.fatal then Fatal else Retry, 0, []);
    case Deliver(body, _) => ForwardRest(c.ids, 0, Fatal, BodyId(body), body);
    case Clear =>
    case Flag(_) =>
  }

  lemma WireOkStep(c: Conn, e: Event)
    requires WireOk(c) && Enabled(c, e) && (forall k | k in c.ids.attempts :: k < c.ids.next)
    ensures WireOk(Step(c, e))
  {
    ForwardStep(c, e);
    var d := Step(c, e);
    forall j | 0 <= j < |d.wire| ensures Authored(d.ids, d.wire[j]) {
      if j < |c.wire| { assert Authored(c.ids, c.wire[j]); }
    }
  }

  // ---- Timely runs: replies reach the attempt that asked ----

  /** The server's reply to a frame the attempt itself wrote. */
  ghost predicate Answered(c: Conn, k: nat, body: seq<Byte>) {
    exists j :: 0 <= j < |c.wire| && c.wire[j].owner == k && j in c.answers && c.answers[j] == body
  }

  ghost predicate ReplyOk(c: Conn, k: nat)
    requires k in c.ids.attempts
  {
    var x := c.ids.attempts[k];
    && (x.rx.Got? ==> |x.rx.body| >= 2 && Answered(c, k, x.rx.body))
    && (x.phase.Finished? && x.phase.outcome.Ok? ==>
          x.rx.Got? && |x.rx.body| >= 2 && x.phase.outcome.reply == Restamp(x.rx.body, x.query))
  }

  /** Nothing new reaches the attempt from `x` to `y`, except that it may hand out the reply it got. */
  predicate Tame(x: Attempt, y: Attempt) {
    && y.query == x.query
    && (y.rx.Got? ==> y.rx == x.rx)
    && (y.phase.Finished? && y.phase.outcome.Ok? ==>
          && (x.rx.Got? ==> y.rx == x.rx)
          && (|| y.phase == x.phase
              || (x.rx.Got? && |x.rx.body| >= 2 && y.phase.outcome.reply == Restamp(x.rx.body, x.query))))
  }

  ghost predicate Extends(c: Conn, d: Conn) {
    c.wire <= d.wire && forall j | j in c.answers :: j in d.answers && d.answers[j] == c.answers[j]
  }

  lemma ReplyOkTame(c: Conn, d: Conn, k: nat)
    requires k in c.ids.attempts && ReplyOk(c, k) && Extends(c, d)
    requires k in d.ids.attempts && Tame(c.ids.attempts[k], d.ids.attempts[k])
    ensures ReplyOk(d, k)
  {
    var x := c.ids.attempts[k];
    if x.rx.Got? {
      var j :| 0 <= j < |c.wire| && c.wire[j].owner == k && j in c.answers && c.answers[j] == x.rx.body;
      assert d.wire[j] == c.wire[j];
    }
  }

  /** Every reply handed out is the attempt's own, and no entry stands in the way of a later one. */
  ghost predicate Answering(c: Conn) {
    && Owned(c.ids)
    && WireOk(c)
    && (c.reader.Gone? || Ordered(c.ids))
    && (forall k | k in c.ids.attempts :: ReplyOk(c, k))
  }

  /** Besides, until the reader clears the map everybody keeps its own entry. */
  ghost predicate Routed(c: Conn) { Answering(c) && (c.reader.Gone? || Held(c.ids)) }

  lemma HeldDo(c: Conn, k: nat, act: Act)
    requires Held(c.ids) && k in c.ids.attempts && ActEnabled(c, k, act)
    ensures Held(Acted(c, k, act).ids)
  {
    HeldMove(c.ids, k, NextPhase(c.ids.attempts[k], act), NextRx(c.ids.attempts[k], act));
  }

  /** A frame carries the id of the attempt that wrote it. */
  lemma OutgoingId(k: nat, query: Query)
    ensures BodyId(Outgoing(k, query)) == k % IDS
  {
    var m := Outgoing(k, query);
    assert m[0] == m[..2][0] && m[1] == m[..2][1];
  }

  /** A timely reply is for the attempt that wrote the answered frame, and finds no foreign
      entry. */
  lemma OwnEntry(c: Conn, body: seq<Byte>, frame: Option<nat>, lags: Lags)
    requires Answering(c) && Enabled(c, Deliver(body, frame))
    requires Timely(c, Deliver(body, frame), lags) && lags.reply < IDS
    ensures !c.ids.Foreign(c.wire[frame.value].owner) && Authored(c.ids, c.wire[frame.value])
    ensures BodyId(body) == c.wire[frame.value].owner % IDS
  {
    assert Authored(c.ids, c.wire[frame.value]);
    OutgoingId(c.wire[frame.value].owner, c.ids.attempts[c.wire[frame.value].owner].query);
    if c.ids.Lag(c.wire[frame.value].owner) < IDS { OnTimeIsOwn(c.ids, c.wire[frame.value].owner); }
  }

  lemma HeldStep(c: Conn, e: Event, lags: Lags)
    requires Routed(c) && !c.reader.Gone? && Enabled(c, e)
    requires Timely(c, e, lags) && lags.reply < IDS && lags.remove < IDS
    ensures e.Clear? || Held(Step(c, e).ids)
  {
    match e
    case Allocate(ticket, caller, query) => HeldAllocate(c.ids, ticket, caller, query);
    case Install(k) => HeldInstall(c.ids, k);
    case Do(k, act) => HeldDo(c, k, act);
    case Remove(k) =>
      if c.ids.Lag(k) < IDS { OnTimeIsOwn(c.ids, k); }
      HeldRemove(c.ids, k, if c.ids.attempts[k].phase.fatal then Fatal else Retry);
    case Deliver(body, frame) =>
      OwnEntry(c, body, frame, lags);
      HeldDeliver(c.ids, c.wire[frame.value].owner, body);
    case Clear =>
    case Flag(_) =>
  }

  lemma OrderedStep(c: Conn, e: Event, lags: Lags)
    requires Owned(c.ids) && Ordered(c.ids) && !c.reader.Gone? && Enabled(c, e)
    requires Timely(c, e, lags) && lags.install < IDS
    ensures Ordered(Step(c, e).ids)
  {
    match e
    case Allocate(ticket, caller, query) => OrderedAllocate(c.ids, ticket, caller, query);
    case Install(k) => OrderedInstall(c.ids, k);
    case _ => OrderedFewer(c.ids, Step(c, e).ids);
  }

  /** Every attempt but `k` is untouched or only tamely changed. */
  predicate TameBut(s: Ids, d: Ids, k: nat) {
    && (forall j | j in s.attempts && j != k :: j in d.attempts && Tame(s.attempts[j], d.attempts[j]))
    && (forall j | j in d.attempts && j != k :: j in s.attempts)
  }

  lemma TameIds(s: Ids, k: nat)
    requires k in s.attempts
    ensures TameBut(s, s.Install(k), k)
    ensures forall outcome :: TameBut(s, s.Remove(k, outcome), k)
  {
  }

  lemma TameClear(s: Ids)
    ensures forall j | j in s.attempts :: Tame(s.attempts[j], s.Clear().attempts[j])
  {
  }

  lemma TameAct(c: Conn, k: nat, act: Act)
    requires k in c.ids.attempts && ActEnabled(c, k, act)
    ensures Tame(c.ids.attempts[k], Acted(c, k, act).ids.attempts[k])
    ensures Extends(c, Acted(c, k, act))
  {
  }

  lemma RepliesKept(c: Conn, d: Conn, k: nat)
    requires forall j | j in c.ids.attempts :: ReplyOk(c, j)
    requires Extends(c, d) && TameBut(c.ids, d.ids, k)
    requires k in d.ids.attempts ==> ReplyOk(d, k)
    ensures forall j | j in d.ids.attempts :: ReplyOk(d, j)
  {
    forall j | j in d.ids.attempts ensures ReplyOk(d, j) {
      if j != k { ReplyOkTame(c, d, j); }
    }
  }

  /** The reply goes to the attempt that wrote the answered frame, or nowhere. */
  lemma RepliesDeliver(c: Conn, body: seq<Byte>, frame: nat)
    requires Answering(c) && frame < |c.wire| && |body| >= 2 && frame !in c.answers
    requires BodyId(body) == c.wire[frame].owner % IDS && !c.ids.Foreign(c.wire[frame].owner)
    ensures var d := c.(ids := c.ids.Deliver(BodyId(body), body), answers := c.answers[frame := body]);
            forall j | j in d.ids.attempts :: ReplyOk(d, j)
  {
    var d := c.(ids := c.ids.Deliver(BodyId(body), body), answers := c.answers[frame := body]);
    var k := c.wire[frame].owner;
    DeliverOwn(c.ids, k, body);
    assert Authored(c.ids, c.wire[frame]);
    if d.ids.attempts[k] == c.ids.attempts[k] {
      ReplyOkTame(c, d, k);
    } else {
      assert d.ids.attempts[k] == c.ids.attempts[k].(rx := Got(body));
      assert SlotOwned(c.ids, k % IDS);
      assert d.wire[frame].owner == k;
    }
    RepliesKept(c, d, k);
  }

  lemma RepliesDo(c: Conn, k: nat, act: Act)
    requires forall j | j in c.ids.attempts :: ReplyOk(c, j)
    requires k in c.ids.attempts && ActEnabled(c, k, act)
    ensures forall j | j in Acted(c, k, act).ids.attempts :: ReplyOk(Acted(c, k, act), j)
  {
    var d := Acted(c, k, act);
    TameAct(c, k, act);
    ReplyOkTame(c, d, k);
    RepliesKept(c, d, k);
  }

  lemma RepliesIds(c: Conn, e: Event)
    requires forall j | j in c.ids.attempts :: ReplyOk(c, j)
    requires Enabled(c, e) && (e.Allocate? || e.Install? || e.Remove?)
    ensures forall j | j in Step(c, e).ids.attempts :: ReplyOk(Step(c, e), j)
  {
    var d := Step(c, e);
    if e.Allocate? {
      RepliesKept(c, d, e.ticket);
    } else {
      TameIds(c.ids, e.k);
      if e.Remove? { ReplyOkTame(c, d, e.k); }
      RepliesKept(c, d, e.k);
    }
  }

  lemma RepliesReader(c: Conn, e: Event)
    requires forall j | j in c.ids.attempts :: ReplyOk(c, j)
    requires Enabled(c, e) && (e.Clear? || e.Flag?)
    ensures forall j | j in Step(c, e).ids.attempts :: ReplyOk(Step(c, e), j)
  {
    TameClear(c.ids);
    forall j | j in Step(c, e).ids.attempts ensures ReplyOk(Step(c, e), j) { ReplyOkTame(c, Step(c, e), j); }
  }

  lemma RepliesStep(c: Conn, e: Event, lags: Lags)
    requires Answering(c) && Enabled(c, e) && Timely(c, e, lags) && lags.reply < IDS
    ensures forall j | j in Step(c, e).ids.attempts :: ReplyOk(Step(c, e), j)
  {
    match e
    case Do(k, act) => RepliesDo(c, k, act);
    case Deliver(body, frame) =>
      OwnEntry(c, body, frame, lags);
      RepliesDeliver(c, body, frame.value);
    case Clear => RepliesReader(c, e);
    case Flag(_) => RepliesReader(c, e);
    case _ => RepliesIds(c, e);
  }

  /** With replies and installations on time, whatever the removals, everybody's replies are its own. */
  lemma AnsweringStep(c: Conn, e: Event, lags: Lags)
    requires Answering(c) && Enabled(c, e) && Timely(c, e, lags) && lags.reply < IDS && lags.install < IDS
    ensures Answering(Step(c, e))
  {
    OwnedStep(c, e);
    WireOkStep(c, e);
    RepliesStep(c, e, lags);
    if !c.reader.Gone? { OrderedStep(c, e, lags); }
  }

  /** With replies and removals on time, whatever the installations, everything is kept. */
  lemma RoutedStep(c: Conn, e: Event, lags: Lags)
    requires Routed(c) && Enabled(c, e) && Timely(c, e, lags) && lags.reply < IDS && lags.remove < IDS
    ensures Routed(Step(c, e))
  {
    OwnedStep(c, e);
    WireOkStep(c, e);
    RepliesStep(c, e, lags);
    if !c.reader.Gone? { HeldStep(c, e, lags); }
  }

  /** Apart from allocation no attempt appears, and a finished attempt stays as it finished. */
  predicate Settled(s: Ids, d: Ids) {
    && d.attempts.Keys == s.attempts.Keys
    && forall k | k in s.attempts && s.attempts[k].phase.Finished? :: d.attempts[k].phase == s.attempts[k].phase
  }

  lemma SettledIds(s: Ids, k: nat, outcome: Outcome, id: nat, body: seq<Byte>)
    ensures k in s.attempts && !s.attempts[k].phase.Finished? ==>
              Settled(s, s.Install(k)) && Settled(s, s.Remove(k, outcome))
    ensures Settled(s, s.Deliver(id, body)) && Settled(s, s.Clear())
  {
  }

  lemma SettledStep(c: Conn, e: Event)
    requires Enabled(c, e) && !e.Allocate?
    ensures Settled(c.ids, Step(c, e).ids)
  {
    if e.Install? {
      SettledIds(c.ids, e.k, Fatal, 0, []);
    } else if e.Remove? {
      SettledIds(c.ids, e.k, if c.ids.attempts[e.k].phase.fatal then Fatal else Retry, 0, []);
    } else if e.Deliver? {
      SettledIds(c.ids, 0, Fatal, BodyId(e.body), e.body);
    }
  }

  /** The attempt that the event is a step of, if any. */
  function Actor(e: Event): Option<nat> {
    match e
    case Allocate(ticket, _, _) => Some(ticket)
    case Install(k) => Some(k)
    case Do(k, _) => Some(k)
    case Remove(k) => Some(k)
    case _ => None
  }

  /** No attempt but `k` changes its phase from one state to the other. */
  predicate PhasesKept(s: Ids, d: Ids, k: nat) {
    forall j | j in s.attempts && j != k :: j in d.attempts && d.attempts[j].phase == s.attempts[j].phase
  }

  lemma PhasesIds(s: Ids, k: nat, outcome: Outcome, id: nat, body: seq<Byte>)
    ensures k in s.attempts ==> PhasesKept(s, s.Install(k), k) && PhasesKept(s, s.Remove(k, outcome), k)
    ensures forall j | j in s.attempts :: s.Deliver(id, body).attempts[j].phase == s.attempts[j].phase
    ensures forall j | j in s.attempts :: s.Clear().attempts[j].phase == s.attempts[j].phase
  {
  }

  lemma OthersKeepPhase(c: Conn, e: Event)
    requires Enabled(c, e)
    ensures forall k | k in c.ids.attempts && Actor(e) != Some(k) ::
              k in Step(c, e).ids.attempts && Step(c, e).ids.attempts[k].phase == c.ids.attempts[k].phase
  {
    if e.Install? {
      PhasesIds(c.ids, e.k, Fatal, 0, []);
    } else if e.Remove? {
      PhasesIds(c.ids, e.k, if c.ids.attempts[e.k].phase.fatal then Fatal else Retry, 0, []);
    } else if e.Deliver? {
      PhasesIds(c.ids, 0, Fatal, BodyId(e.body), e.body);
    }
  }

  /** What a step, other than an allocation, leaves of every attempt but the actor. */
  predicate Advances(s: Ids, d: Ids, actor: Option<nat>) {
    && d.attempts.Keys == s.attempts.Keys
    && forall k | k in s.attempts ::
         && d.attempts[k].caller == s.attempts[k].caller && d.attempts[k].query == s.attempts[k].query
         && (s.attempts[k].phase.Finished? || actor != Some(k) ==> d.attempts[k].phase == s.attempts[k].phase)
  }

  lemma AdvanceStep(c: Conn, e: Event)
    requires Enabled(c, e) && !e.Allocate? && (forall k | k in c.ids.attempts :: k < c.ids.next)
    ensures Advances(c.ids, Step(c, e).ids, Actor(e))
  {
    OthersKeepPhase(c, e);
    SettledStep(c, e);
    ForwardStep(c, e);
  }

  // ---- Theorems over whole runs ----

  ghost predicate Sound(c: Conn) { Owned(c.ids) && Framed(c) && WireOk(c) }

  lemma SoundStep(c: Conn, e: Event)
    requires Sound(c) && Enabled(c, e)
    ensures Sound(Step(c, e))
  {
    OwnedStep(c, e);
    FramedStep(c, e);
    WireOkStep(c, e);
  }

  lemma {:induction false} SoundRun(c: Conn, es: seq<Event>)
    requires Sound(c) && Runs(c, es)
    ensures Sound(After(c, es))
    decreases |es|
  {
    if es != [] {
      SoundStep(c, es[0]);
      SoundRun(Step(c, es[0]), es[1..]);
    }
  }

  predicate Unfinished(c: Conn, k: nat) { k in c.ids.attempts && !c.ids.attempts[k].phase.Finished? }

  /** No leaked ids: whatever the server sends and however the attempts interleave,
      every entry is owned by an unfinished attempt with that id, each such attempt
      owns at most one, and once all attempts are finished the map is empty. */
  lemma NoLeakedIds(es: seq<Event>)
    requires Runs(Opened, es)
    ensures var c := After(Opened, es);
            && (forall id | id in c.ids.inflight ::
                  Unfinished(c, c.ids.inflight[id].owner) && c.ids.inflight[id].owner % IDS == id)
            && ((forall k | k in c.ids.attempts :: !Unfinished(c, k)) ==> c.ids.inflight == map[])
  {
    SoundRun(Opened, es);
    OwnersUnfinished(After(Opened, es));
  }

  lemma OwnersUnfinished(c: Conn)
    requires Owned(c.ids)
    ensures forall id | id in c.ids.inflight ::
              Unfinished(c, c.ids.inflight[id].owner) && c.ids.inflight[id].owner % IDS == id
    ensures (forall k | k in c.ids.attempts :: !Unfinished(c, k)) ==> c.ids.inflight == map[]
  {
    forall id | id in c.ids.inflight
      ensures Unfinished(c, c.ids.inflight[id].owner) && c.ids.inflight[id].owner % IDS == id
    {
      assert SlotOwned(c.ids, id);
    }
    if c.ids.inflight != map[] {
      var id :| id in c.ids.inflight;
      assert Unfinished(c, c.ids.inflight[id].owner);
    }
  }

  /** Framing: in every run the server can cut the written bytes back into exactly
      the id-rewritten queries, in the order they were written, each written by the
      attempt that owns it; nothing is left over unless a frame is being written or
      a write failed. */
  lemma StreamParses(es: seq<Event>)
    requires Runs(Opened, es)
    ensures var c := After(Opened, es);
            && Parse(c.stream).0 == Messages(c.wire)
            && (forall j | 0 <= j < |c.wire| :: Authored(c.ids, c.wire[j]))
            && (c.writer.None? && !c.broken ==> Parse(c.stream).1 == [] && c.stream == Stream(Messages(c.wire)))
  {
    var c := After(Opened, es);
    assert Stream(Messages(Opened.wire)) == [];
    SoundRun(Opened, es);
    FramedParses(c);
  }

  lemma FramedParses(c: Conn)
    requires Framed(c)
    ensures Parse(c.stream).0 == Messages(c.wire)
    ensures c.writer.None? && !c.broken ==> Parse(c.stream).1 == [] && c.stream == Stream(Messages(c.wire))
  {
    var head := Stream(Messages(c.wire));
    var tail := c.stream[|head|..];
    assert c.stream == head + tail;
    TailIncomplete(c, tail);
    ParseStream(Messages(c.wire), tail);
    assert Messages(c.wire) + [] == Messages(c.wire);
  }

  lemma TailIncomplete(c: Conn, tail: seq<Byte>)
    requires WriterHeld(c) && Tail(c, tail)
    ensures Parse(tail) == ([], tail)
  {
    if !c.broken && c.writer.Some? {
      var x := c.ids.attempts[c.writer.value];
      if x.phase.sent < |x.query| + 2 { CutFrameIncomplete(Outgoing(c.writer.value, x.query), x.phase.sent); }
    }
  }

  lemma {:induction false} RoutedRun(c: Conn, es: seq<Event>, lags: Lags)
    requires Routed(c) && Runs(c, es) && TimelyRun(c, es, lags) && lags.reply < IDS && lags.remove < IDS
    ensures Routed(After(c, es))
    decreases |es|
  {
    if es != [] {
      RoutedStep(c, es[0], lags);
      RoutedRun(Step(c, es[0]), es[1..], lags);
    }
  }

  lemma {:induction false} AnsweringRun(c: Conn, es: seq<Event>, lags: Lags)
    requires Answering(c) && Runs(c, es) && TimelyRun(c, es, lags) && lags.reply < IDS && lags.install < IDS
    ensures Answering(After(c, es))
    decreases |es|
  {
    if es != [] {
      AnsweringStep(c, es[0], lags);
      AnsweringRun(Step(c, es[0]), es[1..], lags);
    }
  }

  /** The attempt's reply is the server's answer to the very frame the attempt
      wrote for its query, with only the two id bytes put back to the caller's. */
  ghost predicate OwnReply(c: Conn, k: nat, reply: seq<Byte>)
    requires k in c.ids.attempts
  {
    exists j, body: seq<Byte> ::
      && 0 <= j < |c.wire| && c.wire[j] == Sent(k, Outgoing(k, c.ids.attempts[k].query))
      && j in c.answers && c.answers[j] == body
      && |body| >= 2 && reply == Restamp(body, c.ids.attempts[k].query)
  }

  ghost predicate AllOwnReplies(c: Conn) {
    forall k | k in c.ids.attempts && c.ids.attempts[k].phase.Finished? && c.ids.attempts[k].phase.outcome.Ok? ::
      OwnReply(c, k, c.ids.attempts[k].phase.outcome.reply)
  }

  lemma AnsweringReplies(c: Conn)
    requires Answering(c)
    ensures AllOwnReplies(c)
  {
    forall k | k in c.ids.attempts && c.ids.attempts[k].phase.Finished? && c.ids.attempts[k].phase.outcome.Ok?
      ensures OwnReply(c, k, c.ids.attempts[k].phase.outcome.reply)
    {
      assert ReplyOk(c, k);
      var body := c.ids.attempts[k].rx.body;
      var j :| 0 <= j < |c.wire| && c.wire[j].owner == k && j in c.answers && c.answers[j] == body;
      assert Authored(c.ids, c.wire[j]);
    }
  }

  /** Reply routing: when harmful replies are less than 65536 counter steps late, and
      harmful removals or harmful installations are too, every attempt that succeeds
      returns the reply to its own query. */
  lemma ReplyRouting(es: seq<Event>, lags: Lags)
    requires Runs(Opened, es) && TimelyRun(Opened, es, lags)
    requires lags.reply < IDS && (lags.remove < IDS || lags.install < IDS)
    ensures AllOwnReplies(After(Opened, es))
  {
    if lags.remove < IDS { RoutedRun(Opened, es, lags); } else { AnsweringRun(Opened, es, lags); }
    AnsweringReplies(After(Opened, es));
  }

  /** An attempt that holds an id and has neither a reply nor given up. */
  predicate Unanswered(c: Conn, k: nat) {
    && k in c.ids.attempts
    && (c.ids.attempts[k].phase.Allocated? || (Receiving(c.ids.attempts[k].phase) && !c.ids.attempts[k].rx.Got?))
  }

  /** While the reader has not cleared the map, every unanswered attempt has its
      entry in it and the map never exceeds 256 entries; an empty map means that
      nobody waits. */
  lemma UnansweredInMap(c: Conn)
    requires Routed(c) && !c.reader.Gone?
    ensures forall k | k in c.ids.attempts && Unanswered(c, k) ::
              k % IDS in c.ids.inflight && c.ids.inflight[k % IDS].owner == k
    ensures |c.ids.inflight| <= MAX_INFLIGHT
    ensures c.ids.inflight == map[] ==> forall k | k in c.ids.attempts :: !Unanswered(c, k)
  {
    forall k | k in c.ids.attempts && Unanswered(c, k)
      ensures k % IDS in c.ids.inflight && c.ids.inflight[k % IDS].owner == k
    {
      assert KeepsId(c.ids, k);
    }
  }

  lemma InflightBound(es: seq<Event>, lags: Lags)
    requires Runs(Opened, es) && TimelyRun(Opened, es, lags) && lags.reply < IDS && lags.remove < IDS
    requires !After(Opened, es).reader.Gone?
    ensures |After(Opened, es).ids.inflight| <= MAX_INFLIGHT
  {
    RoutedRun(Opened, es, lags);
    UnansweredInMap(After(Opened, es));
  }

  /** Nobody waits on the connection, or its reader is gone. */
  ghost predicate Nobody(c: Conn) { c.reader.Gone? || forall k | k in c.ids.attempts :: !Unanswered(c, k) }

  /** Waiting does not start over: an attempt waits after a step only if it did before. */
  predicate Calmer(s: Ids, d: Ids) {
    && d.attempts.Keys == s.attempts.Keys
    && forall k | k in s.attempts :: WaitsOn(d.attempts[k]) ==> WaitsOn(s.attempts[k])
  }

  predicate WaitsOn(x: Attempt) { x.phase.Allocated? || (Receiving(x.phase) && !x.rx.Got?) }

  lemma CalmerIds(s: Ids, k: nat, outcome: Outcome, id: nat, body: seq<Byte>)
    ensures k in s.attempts && s.attempts[k].phase.Allocated? ==> Calmer(s, s.Install(k))
    ensures k in s.attempts ==> Calmer(s, s.Remove(k, outcome))
    ensures Calmer(s, s.Deliver(id, body)) && Calmer(s, s.Clear())
  {
  }

  lemma CalmerDo(c: Conn, k: nat, act: Act)
    requires k in c.ids.attempts && ActEnabled(c, k, act)
    ensures Calmer(c.ids, Acted(c, k, act).ids)
  {
  }

  lemma CalmerStep(c: Conn, e: Event)
    requires Enabled(c, e) && !e.Allocate?
    ensures Calmer(c.ids, Step(c, e).ids)
  {
    if e.Install? {
      CalmerIds(c.ids, e.k, Fatal, 0, []);
    } else if e.Remove? {
      CalmerIds(c.ids, e.k, if c.ids.attempts[e.k].phase.fatal then Fatal else Retry, 0, []);
    } else if e.Deliver? {
      CalmerIds(c.ids, 0, Fatal, BodyId(e.body), e.body);
    } else if e.Do? {
      CalmerDo(c, e.k, e.act);
    }
  }

  lemma NobodyStep(c: Conn, e: Event)
    requires Nobody(c) && Enabled(c, e) && !e.Allocate?
    ensures Nobody(Step(c, e))
  {
    CalmerStep(c, e);
    if !c.reader.Gone? {
      forall k | k in Step(c, e).ids.attempts ensures !Unanswered(Step(c, e), k) { assert !Unanswered(c, k); }
    }
  }
}
