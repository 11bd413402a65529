/** What the single decisions of the DNS pool come to. */
module PoolLaws {
  import opened Bytes
  import opened Inflight
  import Mux
  import MuxSafety
  import ConnIds
  import opened Pool
  import opened PoolShape
  import opened PoolBuckets
  import opened PoolPrune
  import opened PoolReplies
  import opened PoolTargets
  import opened PoolTheorems

  // ---- Reuse ----

  /** A call goes through exactly the live connections that the pool has for its target, and
      the dead ones leave the bucket. */
  lemma ProbesLivePool(es: seq<Event>, t: nat, l: nat)
    requires Runs(Empty, es) && Enabled(After(Empty, es), Do(t, Enter))
    ensures var s := After(Empty, es);
            var d := Step(s, Do(t, Enter));
            && (Lists(d.tasks[t], l) <==> Pooled(s, l) && Alive(s, l) && s.links[l].server == s.tasks[t].server)
            && (l in Bucket(d, s.tasks[t].server) <==> Lists(d.tasks[t], l))
  {
    InvRun(es);
  }

  /** The connection in turn gives out an id, or is full. */
  lemma HitOrMiss(s: State, t: nat)
    requires Acting(s, t) && s.tasks[t].pc.Probing? && s.tasks[t].pc.todo != [] && s.tasks[t].pc.todo[0] in s.links
    ensures Enabled(s, Do(t, Miss)) <==> |s.links[s.tasks[t].pc.todo[0]].conn.ids.inflight| >= 256
    ensures Enabled(s, Do(t, Miss)) <==> forall ticket :: !Enabled(s, Do(t, Hit(ticket)))
  {
    var ids := s.links[s.tasks[t].pc.todo[0]].conn.ids;
    if |ids.inflight| < MAX_INFLIGHT {
      var ticket := ConnIds.IdAvailable(ids.inflight.Keys, ids.next);
      assert Enabled(s, Do(t, Hit(ticket)));
    }
  }

  lemma ListedIsLink(s: State, t: nat)
    requires ListsOk(s) && Acting(s, t) && s.tasks[t].pc.Probing? && s.tasks[t].pc.todo != []
    ensures s.tasks[t].pc.todo[0] in s.links
  {
    assert Lists(s.tasks[t], s.tasks[t].pc.todo[0]);
  }

  /** It passes over a connection exactly when that one has no id to give. */
  lemma PassesOnlyFull(es: seq<Event>, t: nat)
    requires Runs(Empty, es) && Acting(After(Empty, es), t)
    requires After(Empty, es).tasks[t].pc.Probing? && After(Empty, es).tasks[t].pc.todo != []
    ensures var s := After(Empty, es);
            && s.tasks[t].pc.todo[0] in s.links
            && (Enabled(s, Do(t, Miss)) <==> |s.links[s.tasks[t].pc.todo[0]].conn.ids.inflight| >= 256)
            && (Enabled(s, Do(t, Miss)) <==> forall ticket :: !Enabled(s, Do(t, Hit(ticket))))
  {
    InvRun(es);
    ListedIsLink(After(Empty, es), t);
    HitOrMiss(After(Empty, es), t);
  }

  // ---- The cap ----

  /** The live connections of the pool to a target. */
  ghost function LiveOf(s: State, server: Server): set<nat> {
    set l | l in s.links && Pooled(s, l) && Alive(s, l) && s.links[l].server == server
  }

  lemma RetainedIsLive(s: State, server: Server)
    requires Inv(s, Wild)
    ensures |Retained(s, Bucket(s, server))| == |LiveOf(s, server)|
  {
    var live := Retained(s, Bucket(s, server));
    assert Distinct(Bucket(s, server));
    PlacesAndElements(live);
    assert Elements(live) == LiveOf(s, server);
  }

  /** Under open_lock a call goes on to open a connection exactly when the pool has fewer
      than 8 live ones to its target; otherwise it goes on to its second round. */
  lemma OpensBelowCap(es: seq<Event>, t: nat)
    requires Runs(Empty, es) && Enabled(After(Empty, es), Do(t, Check))
    ensures var s := After(Empty, es);
            var d := Step(s, Do(t, Check));
            && Acting(d, t)
            && (d.tasks[t].pc.Loading? && !d.tasks[t].forced <==> |LiveOf(s, s.tasks[t].server)| < 8)
            && (d.tasks[t].pc.WantOpen? && d.tasks[t].forced <==> |LiveOf(s, s.tasks[t].server)| >= 8)
  {
    InvRun(es);
    var s := After(Empty, es);
    assert TargetOk(s, t);
    RetainedIsLive(s, s.tasks[t].server);
  }

  /** Whether the call has looked for a connection to reuse since it last took open_lock. */
  predicate Tried(b: bool, es: seq<Event>, t: nat)
    decreases |es|
  {
    if es == [] then b
    else Tried(if es[0] == Do(t, LockOpen) then false else if es[0] == Do(t, Enter) then true else b, es[1..], t)
  }

  /** The call is past its second look. */
  predicate PastLook(s: State, t: nat) {
    && Acting(s, t) && !s.tasks[t].forced
    && var pc := s.tasks[t].pc;
       (pc.Probing? && pc.locked) || pc.WantCheck? || pc.Loading? || pc.Dialing? || pc.Allocating? || pc.WantPublish?
  }

  lemma LookedStep(s: State, e: Event, t: nat)
    requires Enabled(s, e) && PastLook(Step(s, e), t)
    ensures e != Do(t, LockOpen) && (PastLook(s, t) || e == Do(t, Enter))
  {
    if e.Do? {
      ActedTasks(s, e.t, e.act);
      if e.t == t { LookedAct(s, t, e.act); }
    }
  }

  lemma LookedAct(s: State, t: nat, act: Act)
    requires Acting(s, t) && ActEnabled(s, t, act) && PastLook(Acted(s, t, act), t)
    ensures !act.LockOpen? && (PastLook(s, t) || act.Enter?)
  {
  }

  lemma {:induction false} LookedRun(s: State, es: seq<Event>, t: nat, b: bool)
    requires Runs(s, es) && (PastLook(s, t) ==> b) && PastLook(After(s, es), t)
    ensures Tried(b, es, t)
    decreases |es|
  {
    if es != [] {
      var b' := if es[0] == Do(t, LockOpen) then false else if es[0] == Do(t, Enter) then true else b;
      if PastLook(Step(s, es[0]), t) { LookedStep(s, es[0], t); }
      LookedRun(Step(s, es[0]), es[1..], t, b');
    }
  }

  /** A first-round call opens a connection only after it has looked for one to reuse again
      under open_lock. */
  lemma LooksAgainBeforeOpening(es: seq<Event>, t: nat)
    requires Runs(Empty, es) && Enabled(After(Empty, es), Do(t, Load)) && !After(Empty, es).tasks[t].forced
    ensures Tried(false, es, t)
  {
    LookedRun(Empty, es, t, false);
  }

  // ---- Dialling ----

  /** How often the call has begun to dial. */
  function Dials(es: seq<Event>, t: nat): nat
    decreases |es|
  {
    if es == [] then 0 else (if es[0] == Do(t, Load) then 1 else 0) + Dials(es[1..], t)
  }

  /** The rounds in which the call may have dialled. */
  function Rounds(s: State, t: nat): nat {
    if !Acting(s, t) then 0
    else (if s.tasks[t].forced then 1 else 0)
         + (if Looking(s.tasks[t]) || s.tasks[t].pc.WantOpen? || s.tasks[t].pc.Loading? then 0 else 1)
  }

  lemma DialsAct(s: State, t: nat, act: Act)
    requires Acting(s, t) && ActEnabled(s, t, act)
    ensures Rounds(s, t) + (if act.Load? then 1 else 0) <= Rounds(Acted(s, t, act), t)
  {
    if Reusing(act) { ReusingDials(s, t, act); }
  }

  lemma ReusingDials(s: State, t: nat, act: Act)
    requires Acting(s, t) && ActEnabled(s, t, act) && Reusing(act)
    ensures Rounds(s, t) <= Rounds(Acted(s, t, act), t)
  {
  }

  lemma DialsStep(s: State, e: Event, t: nat)
    requires Enabled(s, e)
    ensures Rounds(s, t) + (if e == Do(t, Load) then 1 else 0) <= Rounds(Step(s, e), t)
  {
    if e.Do? {
      ActedTasks(s, e.t, e.act);
      if e.t == t { DialsAct(s, t, e.act); }
    } else if e.DoPrune? {
      PruneShape(s, e.t, s.tasks[e.t].prune, e.prune);
    }
  }

  lemma {:induction false} DialsRun(s: State, es: seq<Event>, t: nat)
    requires Runs(s, es)
    ensures Rounds(s, t) + Dials(es, t) <= Rounds(After(s, es), t)
    decreases |es|
  {
    if es != [] {
      DialsStep(s, es[0], t);
      DialsRun(Step(s, es[0]), es[1..], t);
    }
  }

  /** In every run a call dials at most twice. */
  lemma DialsAtMostTwice(es: seq<Event>, t: nat)
    requires Runs(Empty, es)
    ensures Dials(es, t) <= 2
  {
    DialsRun(Empty, es, t);
  }

  // ---- Prune ----

  /** `prune` goes through all connections of the pool. */
  lemma PruneVisitsAll(s: State, t: nat, todo: seq<nat>, l: nat)
    requires Enabled(s, DoPrune(t, EnterPrune(todo)))
    ensures Lists(Step(s, DoPrune(t, EnterPrune(todo))).tasks[t], l) <==> Pooled(s, l)
  {
  }

  /** A connection that is dead when its turn comes leaves the pool; a live one is checked. */
  lemma PruneDropsDead(es: seq<Event>, t: nat)
    requires Runs(Empty, es) && Enabled(After(Empty, es), DoPrune(t, Look))
    ensures var s := After(Empty, es);
            var l := s.tasks[t].prune.todo[0];
            var d := Step(s, DoPrune(t, Look));
            && (!Alive(s, l) ==> !Pooled(d, l))
            && (Alive(s, l) ==> Enabled(d, DoPrune(t, Verify(true))) && d.tasks[t].prune.link == l)
  {
  }

  /** The last thing the pruner did. */
  function LastAct(last: Option<PruneAct>, es: seq<Event>, t: nat): Option<PruneAct>
    decreases |es|
  {
    if es == [] then last
    else LastAct(if es[0].DoPrune? && es[0].t == t then Some(es[0].prune) else last, es[1..], t)
  }

  lemma RetiringStep(s: State, e: Event, t: nat)
    requires Enabled(s, e) && t in Step(s, e).tasks && IsRetiring(Step(s, e).tasks[t])
    ensures || e == DoPrune(t, Verify(true))
            || (t in s.tasks && IsRetiring(s.tasks[t]) && !(e.DoPrune? && e.t == t))
  {
    if e.Do? { ActedTasks(s, e.t, e.act); }
    if e.DoPrune? { PruneShape(s, e.t, s.tasks[e.t].prune, e.prune); }
  }

  lemma {:induction false} RetiringRun(s: State, es: seq<Event>, t: nat, last: Option<PruneAct>)
    requires Runs(s, es) && (t in s.tasks && IsRetiring(s.tasks[t]) ==> last == Some(Verify(true)))
    requires t in After(s, es).tasks && IsRetiring(After(s, es).tasks[t])
    ensures LastAct(last, es, t) == Some(Verify(true))
    decreases |es|
  {
    if es != [] {
      var next := if es[0].DoPrune? && es[0].t == t then Some(es[0].prune) else last;
      var d := Step(s, es[0]);
      if t in d.tasks && IsRetiring(d.tasks[t]) { RetiringStep(s, es[0], t); }
      RetiringRun(d, es[1..], t, next);
    }
  }

  /** `prune` retires a connection only right after it has found it unused for longer than
      the idle timeout. */
  lemma RetiresOnlyIdle(es: seq<Event>, t: nat)
    requires Runs(Empty, es) && Enabled(After(Empty, es), DoPrune(t, Retire))
    ensures LastAct(None, es, t) == Some(Verify(true))
  {
    RetiringRun(Empty, es, t, None);
  }

  /** And what it finds so, with no id out, it retires: the connection is then dead and out
      of the pool. */
  lemma RetiresIdle(es: seq<Event>, t: nat)
    requires Runs(Empty, es) && Enabled(After(Empty, es), DoPrune(t, Verify(true)))
    requires var s := After(Empty, es); s.links[s.tasks[t].prune.link].conn.ids.inflight == map[]
    ensures var s := After(Empty, es);
            var d := Step(s, DoPrune(t, Verify(true)));
            && Enabled(d, DoPrune(t, Retire))
            && !Alive(Step(d, DoPrune(t, Retire)), s.tasks[t].prune.link)
            && !Pooled(Step(d, DoPrune(t, Retire)), s.tasks[t].prune.link)
  {
  }

  // ---- Nobody is passed over unseen ----

  /** What a call that looks for a connection, or a pruner, still owes a look: at first all
      live connections of the pool to its target, or all of the pool. */
  ghost function Owes(s: State, e: Event, t: nat, owed: set<nat>): set<nat>
    requires Enabled(s, e)
  {
    if e == Do(t, Enter) then LiveOf(s, s.tasks[t].server)
    else if e == Do(t, Miss) then owed - {s.tasks[t].pc.todo[0]}
    else if e.DoPrune? && e.t == t && e.prune.EnterPrune? then set l | l in s.links && Pooled(s, l)
    else if e == DoPrune(t, Look) then owed - {s.tasks[t].prune.todo[0]}
    else owed
  }

  ghost function Owed(s: State, es: seq<Event>, t: nat, owed: set<nat>): set<nat>
    requires Runs(s, es)
    decreases |es|
  {
    if es == [] then owed else Owed(Step(s, es[0]), es[1..], t, Owes(s, es[0], t, owed))
  }

  /** The connections a task has still on its list. */
  function Todo(task: Task): Option<seq<nat>> {
    match task
    case Resolve(_, _, _, pc) => if pc.Probing? then Some(pc.todo) else None
    case Prune(pc) => if pc.Scanning? || pc.Checking? || pc.Retiring? then Some(pc.todo) else None
    case Swap(_, _) => None
  }

  ghost predicate Listed(s: State, t: nat, owed: set<nat>) {
    t in s.tasks && Todo(s.tasks[t]).Some? ==> owed <= Elements(Todo(s.tasks[t]).value)
  }

  lemma ListedFront(todo: seq<nat>, owed: set<nat>)
    requires todo != [] && owed <= Elements(todo)
    ensures owed - {todo[0]} <= Elements(todo[1..])
  {
  }

  lemma ListedReusing(s: State, t: nat, act: Act, owed: set<nat>)
    requires BucketsOk(s) && Listed(s, t, owed) && Acting(s, t) && ActEnabled(s, t, act) && Reusing(act)
    ensures Listed(Acted(s, t, act), t, Owes(s, Do(t, act), t, owed))
  {
    if act.Miss? { ListedFront(s.tasks[t].pc.todo, owed); }
  }

  lemma ListedDialing(s: State, t: nat, act: Act, owed: set<nat>)
    requires Acting(s, t) && ActEnabled(s, t, act) && !Reusing(act)
    ensures Listed(Acted(s, t, act), t, owed)
  {
  }

  lemma ListedPrune(s: State, t: nat, act: PruneAct, owed: set<nat>)
    requires Listed(s, t, owed) && Enabled(s, DoPrune(t, act))
    ensures Listed(Step(s, DoPrune(t, act)), t, Owes(s, DoPrune(t, act), t, owed))
  {
    if act.Look? { ListedFront(s.tasks[t].prune.todo, owed); }
  }

  lemma ListedOther(s: State, e: Event, t: nat, owed: set<nat>)
    requires Listed(s, t, owed) && Enabled(s, e) && !((e.Do? || e.DoPrune?) && e.t == t)
    ensures Listed(Step(s, e), t, owed)
  {
    if e.Do? { ActedTasks(s, e.t, e.act); }
    if e.DoPrune? { PruneShape(s, e.t, s.tasks[e.t].prune, e.prune); }
  }

  lemma ListedStep(s: State, e: Event, t: nat, owed: set<nat>)
    requires BucketsOk(s) && Listed(s, t, owed) && Enabled(s, e)
    ensures Listed(Step(s, e), t, Owes(s, e, t, owed))
  {
    if e.Do? && e.t == t {
      if Reusing(e.act) { ListedReusing(s, t, e.act, owed); } else { ListedDialing(s, t, e.act, owed); }
    } else if e.DoPrune? && e.t == t {
      ListedPrune(s, t, e.prune, owed);
    } else {
      ListedOther(s, e, t, owed);
    }
  }

  lemma {:induction false} ListedRun(s: State, es: seq<Event>, t: nat, owed: set<nat>)
    requires Inv(s, Wild) && Runs(s, es) && Listed(s, t, owed)
    ensures Listed(After(s, es), t, Owed(s, es, t, owed))
    decreases |es|
  {
    if es != [] {
      ListedStep(s, es[0], t, owed);
      InvStep(s, es[0], Wild, Mux.Lags(0, 0, 0));
      ListedRun(Step(s, es[0]), es[1..], t, Owes(s, es[0], t, owed));
    }
  }

  /** In every run a call gives up looking for a connection to reuse only when it has found
      every one full that was live and in the pool for its target when it began; and a
      pruner ends only when it has looked at every connection that was in the pool. */
  lemma LooksAtAll(es: seq<Event>, t: nat)
    requires Runs(Empty, es)
    requires Enabled(After(Empty, es), Do(t, Exhaust)) || Enabled(After(Empty, es), DoPrune(t, EndPrune))
    ensures Owed(Empty, es, t, {}) == {}
  {
    EmptyInv(Wild);
    ListedRun(Empty, es, t, {});
  }

  // ---- What connections die of ----

  /** The event is the end of the connection: a failed write, its reader leaving, its
      retirement by `prune`, or `set_proxy` finding it in the pool. */
  ghost predicate Fells(s: State, e: Event, l: nat)
    requires Enabled(s, e)
  {
    match e
    case Inside(m, Do(_, act)) => m == l && act.WriteFail?
    case Inside(m, Flag(signal)) => m == l && signal.MarkDead?
    case DoPrune(t, act) => act.Retire? && s.tasks[t].prune.link == l
    case EndSwap(_) => Pooled(s, l)
    case _ => false
  }

  lemma ConnDies(c: Mux.Conn, e: Mux.Event)
    requires Mux.Enabled(c, e) && c.alive
    ensures !Mux.Step(c, e).alive <==>
            (e.Do? && e.act.WriteFail?) || (e.Flag? && (e.signal.MarkDead? || e.signal.Kill?))
  {
  }

  lemma ActedDeaths(s: State, t: nat, act: Act, l: nat)
    requires Acting(s, t) && ActEnabled(s, t, act) && Alive(s, l)
    ensures Alive(Acted(s, t, act), l)
  {
    ActedLinks(s, t, act);
  }

  /** A live connection dies of these and of nothing else. */
  lemma DeathCauses(s: State, e: Event, l: nat)
    requires Enabled(s, e) && Alive(s, l)
    ensures !Alive(Step(s, e), l) <==> Fells(s, e, l)
  {
    if e.Do? {
      ActedDeaths(s, e.t, e.act, l);
    } else if e.DoPrune? {
      PruneShape(s, e.t, s.tasks[e.t].prune, e.prune);
    } else if e.Inside? && e.link == l {
      ConnDies(s.links[e.link].conn, e.e);
    }
  }
}
