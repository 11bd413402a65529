/**
 One pooled DNS connection as a state machine.

 Many attempts share the connection under locally allocated 16-bit ids. An
 event is one mutex-protected region, one atomic store, one chunk of a write or
 one decision of a `select`/`timeout`; runs interleave the events of all
 attempts and of the reader task freely. What the network does (replies, errors,
 timeouts, how much a write accepts) is carried by the event.
 */
module Mux {
  import opened Bytes
  import opened Framing
  import opened Inflight

  /** A frame that has been written in full, and the attempt that wrote it. */
  datatype Sent = Sent(owner: nat, message: Message)

  datatype Reader = Reading | Stopped | Marked | Gone

  datatype Conn = Conn(
    ids: Ids,
    writer: Option<nat>,           // holder of the writer mutex
    stream: seq<Byte>,             // bytes written so far
    wire: seq<Sent>,               // frames written in full, in order
    answers: map<nat, seq<Byte>>,  // frame index to the reply delivered for it
    broken: bool,                  // a write failed; the socket takes no more
    alive: bool,
    reader: Reader)

  const Opened := Conn(Ids(map[], 0, map[]), None, [], [], map[], false, true, Reading)

  /** What an attempt does by itself. */
  datatype Act =
    | LockWriter
    | WriteSome(n: nat)
    | WriteDone
    | WriteFail
    | Touch       // update last_used
    | TakeReply
    | SeeDropped
    | TimeOut

  /** Steps that touch neither the ids nor the attempts. */
  datatype Signal = Idle | ReadError | MarkDead | Kill

  datatype Event =
    | Allocate(ticket: nat, caller: nat, query: Query)
    | Install(k: nat)
    | Do(k: nat, act: Act)
    | Remove(k: nat)
    | Deliver(body: seq<Byte>, frame: Option<nat>)  // `frame`: the frame the server answers, if any
    | Clear
    | Flag(signal: Signal)

  /** The query as it goes out: under the id of the ticket. */
  function Outgoing(k: nat, query: Query): (m: Message) { Restamp(query, ToBe16(k % IDS)) }

  function BodyId(body: seq<Byte>): (id: nat)
    requires |body| >= 2
    ensures id < IDS
  {
    FromBe16(body[0], body[1])
  }

  /** Bytes of the attempt's frame still to be written. */
  function Left(x: Attempt): int {
    if x.phase.Writing? then |x.query| + 2 - x.phase.sent else -1
  }

  predicate ActEnabled(c: Conn, k: nat, act: Act)
    requires k in c.ids.attempts
  {
    var x := c.ids.attempts[k];
    match act
    case LockWriter => x.phase.Ready? && c.writer.None?
    case WriteSome(n) => !c.broken && 0 < n <= Left(x)
    case WriteDone => Left(x) == 0
    case WriteFail => Left(x) > 0
    case Touch => x.phase.Written?
    case TakeReply => x.phase.Waiting? && x.rx.Got? && |x.rx.body| >= 2
    case SeeDropped => x.phase.Waiting? && x.rx.Dropped?
    case TimeOut => x.phase.Waiting? && x.rx.Pending?
  }

  function NextPhase(x: Attempt, act: Act): Phase {
    match act
    case LockWriter => Writing(0)
    case WriteSome(n) => if x.phase.Writing? then Writing(x.phase.sent + n) else x.phase
    case WriteDone => Written
    case WriteFail => Removing(false)
    case Touch => Waiting
    case TakeReply => if x.rx.Got? && |x.rx.body| >= 2 then Finished(Ok(Restamp(x.rx.body, x.query))) else x.phase
    case SeeDropped => Removing(false)
    case TimeOut => Removing(true)
  }

  function NextRx(x: Attempt, act: Act): Rx { if act.TimeOut? then NoRx else x.rx }

  function Acted(c: Conn, k: nat, act: Act): Conn
    requires k in c.ids.attempts && ActEnabled(c, k, act)
  {
    var x := c.ids.attempts[k];
    var d := c.(ids := c.ids.Move(k, NextPhase(x, act), NextRx(x, act)));
    match act
    case LockWriter => d.(writer := Some(k))
    case WriteSome(n) =>
      d.(stream := c.stream + Frame(Outgoing(k, x.query))[x.phase.sent..x.phase.sent + n],
         wire := if n == Left(x) then c.wire + [Sent(k, Outgoing(k, x.query))] else c.wire)
    case WriteDone => d.(writer := None)
    case WriteFail => d.(writer := None, broken := true, alive := false)
    case _ => d
  }

  predicate Flagged(c: Conn, signal: Signal) {
    match signal
    case Idle => c.reader.Reading? && c.ids.inflight == map[]
    case ReadError => c.reader.Reading?
    case MarkDead => c.reader.Stopped?
    case Kill => true
  }

  function Raise(c: Conn, signal: Signal): Conn {
    match signal
    case Idle => c.(reader := Stopped)
    case ReadError => c.(reader := Stopped)
    case MarkDead => c.(reader := Marked, alive := false)
    case Kill => c.(alive := false)
  }

  ghost predicate Enabled(c: Conn, e: Event) {
    match e
    case Allocate(ticket, _, _) => |c.ids.inflight| < MAX_INFLIGHT && c.ids.Vacant(ticket)
    case Install(k) => k in c.ids.attempts && c.ids.attempts[k].phase.Allocated?
    case Do(k, act) => k in c.ids.attempts && ActEnabled(c, k, act)
    case Remove(k) => k in c.ids.attempts && c.ids.attempts[k].phase.Removing?
    case Deliver(body, _) => c.reader.Reading? && |body| >= 2
    case Clear => c.reader.Marked?
    case Flag(signal) => Flagged(c, signal)
  }

  ghost function Step(c: Conn, e: Event): Conn
    requires Enabled(c, e)
  {
    match e
    case Allocate(ticket, caller, query) => c.(ids := c.ids.Allocate(ticket, caller, query))
    case Install(k) => c.(ids := c.ids.Install(k))
    case Do(k, act) => Acted(c, k, act)
    case Remove(k) => c.(ids := c.ids.Remove(k, if c.ids.attempts[k].phase.fatal then Fatal else Retry))
    case Deliver(body, frame) =>
      c.(ids := c.ids.Deliver(BodyId(body), body),
         answers := if frame.Some? then c.answers[frame.value := body] else c.answers)
    case Clear => c.(ids := c.ids.Clear(), reader := Gone)
    case Flag(signal) => Raise(c, signal)
  }

  /** How many counter steps late replies, removals and installations may be. */
  datatype Lags = Lags(reply: nat, remove: nat, install: nat)

  /** The server answers a frame at most once and under the id in it. Lateness matters only
      where it can do harm: a reply or a removal that finds somebody else's entry under
      the id, an installation that does not find its own placeholder, and both only
      until the exiting reader has cleared the map. */
  ghost predicate Timely(c: Conn, e: Event, lags: Lags)
    requires Enabled(c, e)
  {
    match e
    case Deliver(body, frame) =>
      && frame.Some? && frame.value < |c.wire| && frame.value !in c.answers
      && BodyId(body) == BodyId(c.wire[frame.value].message)
      && (c.ids.Foreign(c.wire[frame.value].owner) ==> c.ids.Lag(c.wire[frame.value].owner) <= lags.reply)
    case Remove(k) => !c.reader.Gone? && c.ids.Foreign(k) ==> c.ids.Lag(k) <= lags.remove
    case Install(k) => !c.reader.Gone? && !c.ids.Reserved(k) ==> c.ids.Lag(k) <= lags.install
    case _ => true
  }

  ghost predicate Runs(c: Conn, es: seq<Event>)
    decreases |es|
  {
    es == [] || (Enabled(c, es[0]) && Runs(Step(c, es[0]), es[1..]))
  }

  ghost function After(c: Conn, es: seq<Event>): Conn
    requires Runs(c, es)
    decreases |es|
  {
    if es == [] then c else After(Step(c, es[0]), es[1..])
  }

  ghost predicate TimelyRun(c: Conn, es: seq<Event>, lags: Lags)
    requires Runs(c, es)
    decreases |es|
  {
    es == [] || (Timely(c, es[0], lags) && TimelyRun(Step(c, es[0]), es[1..], lags))
  }
}
