/** Connections through an old proxy after `set_proxy`: exactly when there is one, and whose it is. */
module PoolSwap {
  import opened Bytes
  import opened Inflight
  import Mux
  import opened Pool
  import opened PoolShape
  import opened PoolBuckets
  import opened PoolReplies
  import opened PoolTheorems

  ghost predicate Reaches(s: State) { exists es :: Runs(Empty, es) && After(Empty, es) == s }

  lemma {:induction false} RunSnoc(s: State, es: seq<Event>, e: Event)
    requires Runs(s, es) && Enabled(After(s, es), e)
    ensures Runs(s, es + [e]) && After(s, es + [e]) == Step(After(s, es), e)
    decreases |es|
  {
    if es == [] {
      assert es + [e] == [e] && [e][1..] == [];
    } else {
      assert (es + [e])[0] == es[0] && (es + [e])[1..] == es[1..] + [e];
      RunSnoc(Step(s, es[0]), es[1..], e);
    }
  }

  lemma ReachStep(s: State, e: Event)
    requires Reaches(s) && Enabled(s, e)
    ensures Reaches(Step(s, e))
  {
    var es :| Runs(Empty, es) && After(Empty, es) == s;
    RunSnoc(Empty, es, e);
  }

  /** One `resolve`, number 0, holds open_lock at `pc`; no connection is pooled. */
  predicate Opening(s: State, q: Query, pc: Pc) {
    && 0 in s.tasks && s.tasks[0] == Resolve(0, q, false, pc)
    && s.openLock == Some(0) && s.connsLock.None?
    && s.buckets == map[0 := []] && s.version == 0 && s.cleared == 0 && s.links == map[]
    && 1 !in s.tasks
  }

  lemma CallAndLock(q: Query) returns (s: State)
    ensures Reaches(s) && Opening(s, q, WantConns(true))
  {
    assert Runs(Empty, []) && After(Empty, []) == Empty;
    s := Empty;
    var es := [Call(0, 0, q), Do(0, Enter), Do(0, Exhaust), Do(0, LockOpen)];
    ReachStep(s, es[0]); s := Step(s, es[0]);
    ReachStep(s, es[1]); s := Step(s, es[1]);
    ReachStep(s, es[2]); s := Step(s, es[2]);
    ReachStep(s, es[3]); s := Step(s, es[3]);
  }

  lemma CheckAndLoad(s: State, q: Query) returns (d: State)
    requires Reaches(s) && Opening(s, q, WantConns(true))
    ensures Reaches(d) && Opening(d, q, Dialing(0))
  {
    d := s;
    ReachStep(d, Do(0, Enter)); d := Step(d, Do(0, Enter));
    ReachStep(d, Do(0, Exhaust)); d := Step(d, Do(0, Exhaust));
    ReachStep(d, Do(0, Check)); d := Step(d, Do(0, Check));
    ReachStep(d, Do(0, Load)); d := Step(d, Do(0, Load));
  }

  /** `set_proxy` runs to its end while the open is under way; then the open succeeds. */
  lemma SwapThenDial(s: State, q: Query) returns (d: State)
    requires Reaches(s) && Opening(s, q, Dialing(0))
    ensures Reaches(d) && 0 in d.tasks && d.tasks[0] == Resolve(0, q, false, Allocating(0)) && d.connsLock.None?
    ensures d.links == map[0 := Link(0, 0, 0, false, Mux.Opened)] && d.cleared == 1
  {
    d := s;
    ReachStep(d, StartSwap(1)); d := Step(d, StartSwap(1));
    ReachStep(d, EndSwap(1)); d := Step(d, EndSwap(1));
    ReachStep(d, Do(0, DialOk(0))); d := Step(d, Do(0, DialOk(0)));
  }

  lemma PublishOld(s: State, q: Query) returns (d: State)
    requires Reaches(s) && 0 in s.tasks && s.tasks[0] == Resolve(0, q, false, Allocating(0)) && s.connsLock.None?
    requires s.links == map[0 := Link(0, 0, 0, false, Mux.Opened)] && s.cleared == 1
    ensures Reaches(d) && Pooled(d, 0) && Stale(d, 0)
  {
    d := s;
    assert Mux.Enabled(Mux.Opened, Mux.Allocate(0, 0, q));
    ReachStep(d, Do(0, First(0))); d := Step(d, Do(0, First(0)));
    ReachStep(d, Do(0, Publish)); d := Step(d, Do(0, Publish));
  }

  /** The bound of one stale connection after `set_proxy` is reached: the clearing does
      not cover an open that had loaded the old proxy. */
  lemma SwapMayLeaveOne(q: Query) returns (es: seq<Event>)
    ensures Runs(Empty, es) && Pooled(After(Empty, es), 0) && Stale(After(Empty, es), 0)
  {
    var s := CallAndLock(q);
    s := CheckAndLoad(s, q);
    s := SwapThenDial(s, q);
    s := PublishOld(s, q);
    es :| Runs(Empty, es) && After(Empty, es) == s;
  }

  // ---- Whose it is ----

  /** The open is under way through a proxy that has been replaced. */
  predicate Opens(s: State, t: nat) { t in s.tasks && OpeningStale(s, s.tasks[t]) }

  /** Stale connections come from the opens in `origins` only. */
  ghost predicate From(s: State, origins: iset<nat>) {
    && (forall t | Opens(s, t) :: t in origins)
    && (forall l | Pooled(s, l) && Stale(s, l) :: s.links[l].opener in origins)
  }

  lemma FromShrunk(s: State, d: State, t: nat, origins: iset<nat>)
    requires From(s, origins) && Tidy(s) && LinksStay(s, d) && Shrunk(s, d) && d.cleared == s.cleared
    requires t in d.tasks && d.tasks == s.tasks[t := d.tasks[t]]
    requires Opens(d, t) ==> Opens(s, t)
    ensures From(d, origins)
  {
    PooledShrunk(s, d);
    StalePooled(s, d);
    forall u | Opens(d, u) ensures u in origins {
      if u != t { OpeningStayed(s, d, u); }
      assert Opens(s, u);
    }
  }

  lemma FromPublish(s: State, d: State, t: nat, origins: iset<nat>)
    requires From(s, origins) && Tidy(s) && OwnTask(s, d, t) && d.links == s.links
    requires Fresh(s.tasks[t]).Some? && (Opens(d, t) ==> Opens(s, t))
    requires d.buckets == s.buckets[s.tasks[t].server := Bucket(s, s.tasks[t].server) + [Fresh(s.tasks[t]).value]]
    ensures From(d, origins)
  {
    var l := Fresh(s.tasks[t]).value;
    assert PrivateTo(s, t, l);
    PooledPublish(s, d, s.tasks[t].server, l);
    forall m | Pooled(d, m) && Stale(d, m) ensures d.links[m].opener in origins {
      if m == l { assert Opens(s, t); }
    }
    forall u | Opens(d, u) ensures u in origins { assert Opens(s, u); }
  }

  lemma FromActed(s: State, t: nat, act: Act, origins: iset<nat>)
    requires From(s, origins) && OneStale(s) && Tidy(s) && Acting(s, t) && ActEnabled(s, t, act)
    ensures From(Acted(s, t, act), origins)
  {
    var d := Acted(s, t, act);
    ActedTasks(s, t, act);
    ActedLinks(s, t, act);
    ChangedLinksStay(s, d, t, act);
    ActedBuckets(s, t, act);
    ActedFresh(s, t, act);
    OpeningActed(s, t, act);
    if act.Publish? { FromPublish(s, d, t, origins); } else { FromShrunk(s, d, t, origins); }
  }

  lemma FromPrune(s: State, t: nat, act: PruneAct, origins: iset<nat>)
    requires From(s, origins) && Tidy(s)
    requires t in s.tasks && s.tasks[t].Prune? && PruneEnabled(s, s.tasks[t].prune, act)
    ensures From(PruneStep(s, t, s.tasks[t].prune, act), origins)
  {
    var d := PruneStep(s, t, s.tasks[t].prune, act);
    PruneShape(s, t, s.tasks[t].prune, act);
    assert LinksStay(s, d);
    FromShrunk(s, d, t, origins);
  }

  lemma FromInside(s: State, l: nat, e: Mux.Event, origins: iset<nat>)
    requires From(s, origins) && l in s.links && Mux.Enabled(s.links[l].conn, e)
    ensures From(OnLink(s, l, e), origins)
  {
    var d := OnLink(s, l, e);
    assert forall m :: (Pooled(d, m) <==> Pooled(s, m)) && (Stale(d, m) <==> Stale(s, m));
    forall u | Opens(d, u) ensures u in origins { assert Opens(s, u); }
  }

  lemma FromStep(s: State, e: Event, origins: iset<nat>)
    requires From(s, origins) && OneStale(s) && Tidy(s) && Enabled(s, e) && !e.EndSwap?
    ensures From(Step(s, e), origins)
  {
    if e.Do? {
      FromActed(s, e.t, e.act, origins);
    } else if e.DoPrune? {
      FromPrune(s, e.t, e.prune, origins);
    } else if e.Inside? {
      FromInside(s, e.link, e.e, origins);
    } else {
      FromShrunk(s, Step(s, e), e.t, origins);
    }
  }

  /** No further `set_proxy` finishes. */
  predicate NoEndSwap(es: seq<Event>) { forall e | e in es :: !e.EndSwap? }

  lemma {:induction false} FromRun(s: State, es: seq<Event>, origins: iset<nat>)
    requires Inv(s, Wild) && From(s, origins) && Runs(s, es) && NoEndSwap(es)
    ensures From(After(s, es), origins)
    decreases |es|
  {
    if es != [] {
      InvStep(s, es[0], Wild, Mux.Lags(0, 0, 0));
      FromStep(s, es[0], origins);
      assert forall e | e in es[1..] :: e in es;
      FromRun(Step(s, es[0]), es[1..], origins);
    }
  }

  // ---- Exactly when there is one ----

  /** Some continuation, before another `set_proxy` finishes, pools a stale connection. */
  ghost predicate MayPoolStale(s: State) {
    exists es, l :: Runs(s, es) && NoEndSwap(es) && Pooled(After(s, es), l) && Stale(After(s, es), l)
  }

  lemma MayLater(s: State, e: Event)
    requires Enabled(s, e) && !e.EndSwap? && MayPoolStale(Step(s, e))
    ensures MayPoolStale(s)
  {
    var d := Step(s, e);
    var es, l :| Runs(d, es) && NoEndSwap(es) && Pooled(After(d, es), l) && Stale(After(d, es), l);
    var fs := [e] + es;
    assert fs[0] == e && fs[1..] == es;
    assert Runs(s, fs) && NoEndSwap(fs) && After(s, fs) == After(d, es);
  }

  lemma MayNow(s: State, l: nat)
    requires Pooled(s, l) && Stale(s, l)
    ensures MayPoolStale(s)
  {
    assert Runs(s, []) && NoEndSwap([]) && After(s, []) == s;
  }

  lemma PublishesStale(s: State, t: nat)
    requires Inv(s, Wild) && Opens(s, t) && s.tasks[t].pc.WantPublish? && s.connsLock.None?
    ensures MayPoolStale(s)
  {
    var l := s.tasks[t].pc.link;
    assert Fresh(s.tasks[t]) == Some(l) && PrivateTo(s, t, l);
    var d := Step(s, Do(t, Publish));
    ActedBuckets(s, t, Publish);
    ActedTasks(s, t, Publish);
    assert d.links == s.links && Pooled(d, l);
    MayNow(d, l);
    MayLater(s, Do(t, Publish));
  }

  lemma AllocatesStale(s: State, t: nat)
    requires Inv(s, Wild) && Opens(s, t) && s.tasks[t].pc.Allocating? && s.connsLock.None?
    ensures MayPoolStale(s)
  {
    var ticket := FirstEnabled(s, t);
    var e := Do(t, First(ticket));
    InvStep(s, e, Wild, Mux.Lags(0, 0, 0));
    FirstKeepsOpening(s, t, ticket);
    PublishesStale(Step(s, e), t);
    MayLater(s, e);
  }

  lemma FirstKeepsOpening(s: State, t: nat, ticket: nat)
    requires Opens(s, t) && s.tasks[t].pc.Allocating? && s.connsLock.None? && Enabled(s, Do(t, First(ticket)))
    ensures var d := Step(s, Do(t, First(ticket))); Opens(d, t) && d.tasks[t].pc.WantPublish? && d.connsLock.None?
  {
  }

  lemma {:induction false} UnusedNumber(links: set<nat>) returns (l: nat)
    ensures forall m | m in links :: m < l
    decreases |links|
  {
    if links == {} {
      l := 0;
    } else {
      var m :| m in links;
      var n := UnusedNumber(links - {m});
      l := if n <= m then m + 1 else n;
      forall k | k in links ensures k < l { assert k == m || k in links - {m}; }
    }
  }

  lemma DialKeepsOpening(s: State, t: nat, l: nat)
    requires Opens(s, t) && s.tasks[t].pc.Dialing? && s.connsLock.None? && l !in s.links
    ensures var d := Step(s, Do(t, DialOk(l))); Opens(d, t) && d.tasks[t].pc.Allocating? && d.connsLock.None?
  {
  }

  lemma DialsStale(s: State, t: nat)
    requires Inv(s, Wild) && Opens(s, t) && s.tasks[t].pc.Dialing? && s.connsLock.None?
    ensures MayPoolStale(s)
  {
    var l := UnusedNumber(s.links.Keys);
    var e := Do(t, DialOk(l));
    InvStep(s, e, Wild, Mux.Lags(0, 0, 0));
    DialKeepsOpening(s, t, l);
    AllocatesStale(Step(s, e), t);
    MayLater(s, e);
  }

  /** The open goes on: dial, allocate, publish. */
  lemma OpenPoolsStale(s: State, t: nat)
    requires Inv(s, Wild) && Opens(s, t) && s.connsLock.None?
    ensures MayPoolStale(s)
  {
    match s.tasks[t].pc
    case Dialing(_) => DialsStale(s, t);
    case Allocating(_) => AllocatesStale(s, t);
    case WantPublish(_, _) => PublishesStale(s, t);
  }

  /** When `set_proxy` has just finished, the pool may still get a connection through an
      older proxy, before another `set_proxy` finishes, if and only if an open through an
      older proxy is under way at that moment; and such a connection is that open's. */
  lemma StaleOnlyFromOpens(es: seq<Event>, t: nat)
    requires Runs(Empty, es) && Enabled(After(Empty, es), EndSwap(t))
    ensures var s := Step(After(Empty, es), EndSwap(t));
            && (MayPoolStale(s) <==> exists u :: Opens(s, u))
            && (forall fs, l | Runs(s, fs) && NoEndSwap(fs) && Pooled(After(s, fs), l) && Stale(After(s, fs), l) ::
                  Opens(s, After(s, fs).links[l].opener))
  {
    var s := Step(After(Empty, es), EndSwap(t));
    InvRun(es);
    InvStep(After(Empty, es), EndSwap(t), Wild, Mux.Lags(0, 0, 0));
    var origins := iset u | Opens(s, u);
    assert From(s, origins);
    forall fs, l | Runs(s, fs) && NoEndSwap(fs) && Pooled(After(s, fs), l) && Stale(After(s, fs), l)
      ensures Opens(s, After(s, fs).links[l].opener)
    {
      FromRun(s, fs, origins);
    }
    if exists u :: Opens(s, u) {
      var u :| Opens(s, u);
      OpenPoolsStale(s, u);
    }
  }
}
