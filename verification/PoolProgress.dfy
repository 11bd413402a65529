/** Lock order in the DNS pool: its tasks never deadlock on the pool's mutexes. */
module PoolProgress {
  import opened Bytes
  import opened Inflight
  import Mux
  import MuxSafety
  import ConnIds
  import opened Pool
  import opened PoolShape
  import opened PoolBuckets
  import opened PoolReplies
  import opened PoolTheorems

  /** The mutexes of the pool; the last three exist once per connection. */
  datatype Mutex = OpenLock | Conns | InflightOf(link: nat) | LastUsedOf(link: nat) | WriterOf(link: nat)

  function Rank(m: Mutex): (r: nat)
    ensures r <= 2
  {
    match m
    case OpenLock => 0
    case Conns => 1
    case _ => 2
  }

  /** The mutex an attempt needs for its next step. */
  function AttemptWants(l: nat, phase: Phase): Option<Mutex> {
    match phase
    case Allocated => Some(InflightOf(l))
    case Ready => Some(WriterOf(l))
    case Written => Some(LastUsedOf(l))
    case Removing(_) => Some(InflightOf(l))
    case _ => None
  }

  /** The mutex a call needs for its next step, if that step needs one. */
  function Wants(s: State, task: Task): Option<Mutex> {
    match task
    case Resolve(_, _, _, pc) =>
      (match pc
       case WantConns(_) => Some(Conns)
       case Probing(_, todo) => if todo != [] then Some(InflightOf(todo[0])) else None
       case WantOpen => Some(OpenLock)
       case WantCheck => Some(Conns)
       case Allocating(l) => Some(InflightOf(l))
       case WantPublish(_, _) => Some(Conns)
       case Running(l, k) => if HasAttempt(s, l, k) then AttemptWants(l, TheAttempt(s, l, k).phase) else None
       case _ => None)
    case Prune(pc) =>
      (match pc
       case WantPrune => Some(Conns)
       case Checking(l, _) => Some(InflightOf(l))
       case _ => None)
    case Swap(_, done) => if done then None else Some(Conns)
  }

  /** The mutexes a task keeps from one step to the next. */
  predicate Holds(s: State, t: nat, m: Mutex) {
    match m
    case OpenLock => s.openLock == Some(t)
    case Conns => s.connsLock == Some(t)
    case WriterOf(l) =>
      && l in s.links && s.links[l].conn.writer.Some?
      && HasAttempt(s, l, s.links[l].conn.writer.value)
      && TheAttempt(s, l, s.links[l].conn.writer.value).caller == t
    case _ => false
  }

  ghost predicate Blocked(s: State, t: nat) {
    t in s.tasks && Wants(s, s.tasks[t]).Some? && exists u :: Holds(s, u, Wants(s, s.tasks[t]).value)
  }

  /** A task holding a connection's writer is writing on that connection. */
  lemma WriterHolder(s: State, t: nat, l: nat)
    requires Linked(s) && Good(s, Wild) && Holds(s, t, WriterOf(l))
    ensures Acting(s, t) && s.tasks[t].pc == Running(l, s.links[l].conn.writer.value)
    ensures TheAttempt(s, l, s.links[l].conn.writer.value).phase.Writing?
  {
    var c := s.links[l].conn;
    var k := c.writer.value;
    assert ConnGood(c, Wild);
    assert MuxSafety.WritingAt(c.ids, k);
    assert AttemptLinked(s, l, k);
    assert TaskLinked(s, t);
  }

  lemma RanksRise(s: State, t: nat, held: Mutex)
    requires LocksOk(s) && Linked(s) && Good(s, Wild) && t in s.tasks
    requires Holds(s, t, held) && Wants(s, s.tasks[t]).Some?
    ensures Rank(held) < Rank(Wants(s, s.tasks[t]).value)
  {
    match held
    case OpenLock => assert HoldsOpen(s.tasks[t]);
    case Conns => assert HoldsConns(s.tasks[t]);
    case WriterOf(l) => WriterHolder(s, t, l);
  }

  lemma HolderIsTask(s: State, t: nat, m: Mutex)
    requires LocksOk(s) && Linked(s) && Good(s, Wild) && Holds(s, t, m)
    ensures t in s.tasks
  {
    if m.WriterOf? { WriterHolder(s, t, m.link); }
  }

  /** From a blocked task, following holders upwards in rank ends at one that is not blocked. */
  lemma FollowHolders(s: State, t: nat) returns (u: nat, m: Mutex)
    requires LocksOk(s) && Linked(s) && Good(s, Wild) && Blocked(s, t)
    ensures u in s.tasks && Holds(s, u, m) && !Blocked(s, u)
    decreases 2 - Rank(Wants(s, s.tasks[t]).value)
  {
    m := Wants(s, s.tasks[t]).value;
    u :| Holds(s, u, m);
    HolderIsTask(s, u, m);
    if Blocked(s, u) {
      RanksRise(s, u, m);
      u, m := FollowHolders(s, u);
    }
  }

  /** In every reachable state, every task waits only for a mutex ranked above all it holds. */
  lemma LockOrder(es: seq<Event>, t: nat, held: Mutex)
    requires Runs(Empty, es)
    ensures var s := After(Empty, es);
            t in s.tasks && Holds(s, t, held) && Wants(s, s.tasks[t]).Some? ==>
              Rank(held) < Rank(Wants(s, s.tasks[t]).value)
  {
    InvRun(es);
    var s := After(Empty, es);
    if t in s.tasks && Holds(s, t, held) && Wants(s, s.tasks[t]).Some? { RanksRise(s, t, held); }
  }

  // ---- A holder that is not blocked can move ----

  /** The call that the event is a step of. */
  function Mover(s: State, e: Event): Option<nat> {
    match e
    case Do(t, _) => Some(t)
    case DoPrune(t, _) => Some(t)
    case EndSwap(t) => Some(t)
    case Inside(l, Do(k, _)) => if HasAttempt(s, l, k) then Some(TheAttempt(s, l, k).caller) else None
    case _ => None
  }

  ghost predicate CanMove(s: State, t: nat) { exists e :: Enabled(s, e) && Mover(s, e) == Some(t) }

  lemma Moves(s: State, t: nat, e: Event)
    requires Enabled(s, e) && Mover(s, e) == Some(t)
    ensures CanMove(s, t)
  {
  }

  /** Under conns, probing goes on: the connection in turn gives out an id or is full. */
  lemma ProbingMoves(s: State, t: nat)
    requires Inv(s, Wild) && Acting(s, t) && s.tasks[t].pc.Probing?
    ensures CanMove(s, t)
  {
    var todo := s.tasks[t].pc.todo;
    if todo == [] {
      Moves(s, t, Pool.Do(t, Exhaust));
    } else {
      assert Lists(s.tasks[t], todo[0]);
      var ids := s.links[todo[0]].conn.ids;
      if |ids.inflight| >= MAX_INFLIGHT {
        Moves(s, t, Pool.Do(t, Miss));
      } else {
        var ticket := ConnIds.IdAvailable(ids.inflight.Keys, ids.next);
        Moves(s, t, Pool.Do(t, Hit(ticket)));
      }
    }
  }

  lemma PruningMoves(s: State, t: nat)
    requires Inv(s, Wild) && t in s.tasks && s.tasks[t].Prune? && HoldsConns(s.tasks[t])
    ensures CanMove(s, t)
  {
    match s.tasks[t].prune
    case Scanning(todo) =>
      if todo == [] {
        Moves(s, t, DoPrune(t, EndPrune));
      } else {
        assert Lists(s.tasks[t], todo[0]);
        Moves(s, t, DoPrune(t, Look));
      }
    case Checking(l, _) =>
      assert Lists(s.tasks[t], l);
      Moves(s, t, DoPrune(t, Verify(false)));
    case Retiring(l, _) =>
      assert Lists(s.tasks[t], l);
      Moves(s, t, DoPrune(t, Retire));
  }

  /** Nobody holds what the call wants. */
  lemma ConnsFree(s: State, t: nat)
    requires t in s.tasks && !Blocked(s, t) && Wants(s, s.tasks[t]) == Some(Conns)
    ensures s.connsLock.None?
  {
    if s.connsLock.Some? { assert Holds(s, s.connsLock.value, Conns); }
  }

  lemma OpeningMoves(s: State, t: nat)
    requires Inv(s, Wild) && Acting(s, t) && HoldsOpen(s.tasks[t]) && !Blocked(s, t)
    ensures CanMove(s, t)
  {
    match s.tasks[t].pc
    case WantConns(_) =>
      ConnsFree(s, t);
      Moves(s, t, Pool.Do(t, Enter));
    case Probing(_, _) => ProbingMoves(s, t);
    case WantCheck =>
      ConnsFree(s, t);
      Moves(s, t, Pool.Do(t, Check));
    case Loading => Moves(s, t, Pool.Do(t, Load));
    case Dialing(_) => Moves(s, t, Pool.Do(t, DialFail));
    case Allocating(_) =>
      var ticket := FirstEnabled(s, t);
      Moves(s, t, Pool.Do(t, First(ticket)));
    case WantPublish(l, _) =>
      ConnsFree(s, t);
      assert Fresh(s.tasks[t]) == Some(l) && PrivateTo(s, t, l);
      Moves(s, t, Pool.Do(t, Publish));
  }

  /** A writer finishes its frame, or its write fails. */
  lemma WritingMoves(s: State, t: nat, l: nat)
    requires Inv(s, Wild) && Holds(s, t, WriterOf(l))
    ensures CanMove(s, t)
  {
    WriterHolder(s, t, l);
    var c := s.links[l].conn;
    var k := c.writer.value;
    assert ConnGood(c, Wild) && MuxSafety.WritingAt(c.ids, k);
    if Mux.Left(c.ids.attempts[k]) == 0 {
      Moves(s, t, Inside(l, Mux.Do(k, Mux.WriteDone)));
    } else {
      Moves(s, t, Inside(l, Mux.Do(k, Mux.WriteFail)));
    }
  }

  lemma HolderMoves(s: State, t: nat, m: Mutex)
    requires Inv(s, Wild) && t in s.tasks && Holds(s, t, m) && !Blocked(s, t)
    ensures CanMove(s, t)
  {
    match m
    case OpenLock => OpeningMoves(s, t);
    case Conns => if s.tasks[t].Prune? { PruningMoves(s, t); } else { ProbingMoves(s, t); }
    case WriterOf(l) => WritingMoves(s, t, l);
  }

  /** No deadlock: in every reachable state with a task blocked on a pool mutex, some
      task that holds a pool mutex is not blocked and has a next step it can take. */
  lemma NoDeadlock(es: seq<Event>, t: nat) returns (u: nat, m: Mutex)
    requires Runs(Empty, es) && Blocked(After(Empty, es), t)
    ensures var s := After(Empty, es); u in s.tasks && Holds(s, u, m) && !Blocked(s, u) && CanMove(s, u)
  {
    InvRun(es);
    u, m := FollowHolders(After(Empty, es), t);
    HolderMoves(After(Empty, es), u, m);
  }
}
