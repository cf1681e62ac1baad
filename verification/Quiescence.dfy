// What links the pipeline, the requests on their way and the cache in every run,
// and what follows when they are empty.
module Quiescence {
  import opened Bags
  import opened Forest
  import opened Queues
  import opened Tokens
  import opened Transfers
  import opened Whole
  import opened WriteBacks
  import AddressMap
  import C = Cache
  import Conservation
  import Counters
  import Cycles
  import M = Memory
  import R = Routing
  import S = System
  import Schedules
  import T = MissTable

  // A stage of unit v leaves the reads of every unit as they are.
  lemma WatcherStageReads(st: S.Watcher.Stage, v: S.Watcher.State)
    ensures Get(S.Watcher.Step(st, v).q, WMem) == Get(v.q, WMem)
  {
    hide PutAll, S.Watcher.Puts;
    if Get(v.q, S.Watcher.Source(st)) != [] {
      var r := Get(v.q, S.Watcher.Source(st))[0];
      Cycles.WatcherPutsAside(st, r);
      GetPutAll(Pop(v.q, S.Watcher.Source(st)), S.Watcher.Puts(st, r), WMem);
    }
  }

  lemma ClauseStageReads(st: S.Clause.Stage, v: S.Clause.State)
    ensures Get(S.Clause.Step(st, v).q, CMem) == Get(v.q, CMem)
  {
    hide PutAll, S.Clause.Puts;
    if !S.Clause.Idle(st, v) {
      var r := Get(v.q, S.Clause.Source(st))[0];
      Cycles.ClausePutsAside(st, v, r);
      GetPutAll(Pop(v.q, S.Clause.Source(st)), S.Clause.Puts(st, v, r), CMem);
    }
  }

  lemma InnerReads(s: S.System, a: S.Action, u: R.Unit)
    requires !AtMemory(a) || (a.Carry? && a.r.WriterToCache?)
    requires !u.ListWriter? && S.Exists(s, WhereOf(u))
    ensures SameUnits(s, S.Apply(s, a)) && Reads(S.Apply(s, a), u) == Reads(s, u)
  {
    hide S.CarryStep, S.Watcher.Step, S.Clause.Step, S.Ready;
    if S.Enabled(s, a) {
      match a
      case WatcherStage(w, st) => WatcherStageReads(st, s.ws[w]);
      case ClauseStage(c, st) => ClauseStageReads(st, s.cs[c]);
      case WriterStage(k) =>
      case Carry(r, j) => CarryGet(s, r, j, WhereOf(u), MemPlace(u));
    }
  }

  predicate IdleClause(s: S.System, c: nat)
    requires c < |s.cs|
  {
    forall p :: Get(s.cs[c].q, p) == []
  }

  lemma CarryKeepsIdle(s: S.System, r: S.Route, j: nat, c: nat)
    requires S.Enabled(s, S.Carry(r, j)) && c < |s.cs| && IdleClause(s, c) && r != S.NetworkToClause(c)
    ensures c < |S.CarryStep(s, r, j).cs| && IdleClause(S.CarryStep(s, r, j), c)
  {
    CarryGet(s, r, j, S.C(c), CTask);
    assert Get(S.QueuesOf(s, S.From(r).0), S.From(r).1) != [];
    assert S.From(r).0 != S.C(c);
    var s' := S.CarryStep(s, r, j);
    hide S.CarryStep;
    forall p ensures Get(s'.cs[c].q, p) == [] {
      CarryGet(s, r, j, S.C(c), p);
    }
  }

  // A clause unit without a task stays so until one is dispatched to it.
  lemma IdleKept(s: S.System, a: S.Action, c: nat)
    requires c < |s.cs| && IdleClause(s, c)
    requires a.Carry? ==> a.r != S.NetworkToClause(c)
    ensures c < |S.Apply(s, a).cs| && IdleClause(S.Apply(s, a), c)
  {
    hide S.CarryStep, S.Watcher.Step, S.Clause.Step, S.Ready;
    if S.Enabled(s, a) {
      match a
      case WatcherStage(w, st) =>
      case ClauseStage(c', st) =>
      case WriterStage(k) =>
      case Carry(r, j) => CarryKeepsIdle(s, r, j, c);
    }
  }

  // A request of unit u that it has not got back.
  ghost function Away(u: R.Unit): R.Parcel -> multiset<Req> {
    (y: R.Parcel) =>
      if y.x.issuer == u && !R.IsWrite(y.x.req.kind) && !y.at.Returned? then multiset{y.x.req} else multiset{}
  }

  // A request inside partition p of the cache.
  ghost function Inside(p: nat): R.Parcel -> multiset<C.Access> {
    (y: R.Parcel) => if y.at == R.L3(p) then multiset{AccessOf(y)} else multiset{}
  }

  ghost predicate ReadsLinked(m: R.Machine, s: S.System, ps: multiset<R.Parcel>)
    requires |s.ws| == m.nW && |s.cs| == m.nC
  {
    forall u :: Reader(m, u) ==> multiset(Reads(s, u)) == Gather(Away(u), ps)
  }

  ghost predicate CacheLinked(ps: multiset<R.Parcel>, c: C.State)
    requires C.Shape(c)
  {
    forall p :: 0 <= p < |c.ins| ==> Gather(Inside(p), ps) == T.Between(c, p)
  }

  ghost predicate FedLinked(s: S.System, r: R.State)
  {
    forall c :: 0 <= c < |s.cs| && c !in r.fed ==> IdleClause(s, c)
  }

  // A writer has something only for a unit of its share that was sent a task.
  ghost predicate Fed(m: R.Machine, fed: set<nat>, k: nat)
    requires R.Fits(m)
  {
    exists c :: c in fed && R.Serves(m, k, c)
  }

  ghost predicate WritersLinked(m: R.Machine, s: S.System, fed: set<nat>)
    requires R.Fits(m)
  {
    && AllWrites(s)
    && forall k, p :: 0 <= k < |s.ks| && Get(s.ks[k], p) != [] ==> Fed(m, fed, k)
  }

  ghost predicate Sound(m: R.Machine, w: State)
    requires Fits(m, w)
  {
    && Counters.AllCount(w.s) && AllWellFormed(S.Config(w.s))
    && R.Inv(m, w.r)
    && T.Inv(w.c, w.h)
    && ReadsLinked(m, w.s, w.r.parcels)
    && CacheLinked(w.r.parcels, w.c)
    && FedLinked(w.s, w.r)
    && WritersLinked(m, w.s, w.r.fed)
  }

  // The writers, whatever moves in the system.
  lemma WritersKept(m: R.Machine, s: S.System, r: R.State, a: S.Action, fed: set<nat>)
    requires R.Fits(m) && WritersLinked(m, s, r.fed) && FedLinked(s, r) && r.fed <= fed && ToOwnWriter(m, a)
    ensures WritersLinked(m, S.Apply(s, a), fed)
  {
    hide AllWrites, S.Apply, R.Serves, FedLinked, IdleClause;
    StepKeepsWrites(s, a);
    InnerUnits(s, a);
    var s' := S.Apply(s, a);
    forall k, p | 0 <= k < |s'.ks| && Get(s'.ks[k], p) != [] ensures Fed(m, fed, k) {
      WriterFedKept(m, s, r, a, k, p);
      var c :| c in r.fed && R.Serves(m, k, c);
      assert c in fed;
    }
  }

  lemma WriterFedKept(m: R.Machine, s: S.System, r: R.State, a: S.Action, k: nat, p: Place)
    requires R.Fits(m) && WritersLinked(m, s, r.fed) && FedLinked(s, r) && ToOwnWriter(m, a)
    requires k < |s.ks| && k < |S.Apply(s, a).ks| && Get(S.Apply(s, a).ks[k], p) != []
    ensures Fed(m, r.fed, k)
  {
    hide AllWrites, S.CarryStep, S.Watcher.Step, S.Clause.Step, S.ClauseWriter.Step;
    hide R.Serves, Fed, S.Ready, FedLinked, IdleClause;
    if !S.Enabled(s, a) {
      assert Get(s.ks[k], p) != [];
    } else {
      match a
      case WatcherStage(_, _) => assert Get(s.ks[k], p) != [];
      case ClauseStage(_, _) => assert Get(s.ks[k], p) != [];
      case WriterStage(k') => assert Get(s.ks[k], if k' == k then KIn else p) != [];
      case Carry(rt, j) =>
        CarryGet(s, rt, j, S.K(k), p);
        if rt.ClauseToWriter? && rt.k == k {
          ClauseIsFed(m, s, r, rt, j);
        } else {
          assert Get(s.ks[k], p) != [];
        }
    }
  }

  lemma ClauseIsFed(m: R.Machine, s: S.System, r: R.State, rt: S.Route, j: nat)
    requires R.Fits(m) && FedLinked(s, r) && rt.ClauseToWriter? && S.Enabled(s, S.Carry(rt, j))
    requires R.Serves(m, rt.k, rt.c)
    ensures Fed(m, r.fed, rt.k)
  {
    hide R.Serves;
    assert rt.c < |s.cs| && Get(s.cs[rt.c].q, CWrite) != [];
    assert rt.c in r.fed;
  }

  lemma GatherMove<U(!new)>(f: R.Parcel -> multiset<U>, ps: multiset<R.Parcel>, y: R.Parcel, y': R.Parcel)
    requires y in ps
    ensures Gather(f, ps - multiset{y} + multiset{y'}) + f(y) == Gather(f, ps) + f(y')
  {
    GatherPick(f, ps, y);
    GatherAdd(f, ps - multiset{y}, y');
  }

  lemma GatherKept<U(!new)>(f: R.Parcel -> multiset<U>, ps: multiset<R.Parcel>, y: R.Parcel, y': R.Parcel)
    requires y in ps && f(y') == f(y)
    ensures Gather(f, ps - multiset{y} + multiset{y'}) == Gather(f, ps)
  {
    GatherMove(f, ps, y, y');
    Cancel(Gather(f, ps - multiset{y} + multiset{y'}), Gather(f, ps), f(y));
  }

  lemma SystemKept(s: S.System, a: S.Action)
    requires Counters.AllCount(s) && AllWellFormed(S.Config(s))
    ensures Counters.AllCount(S.Apply(s, a)) && AllWellFormed(S.Config(S.Apply(s, a)))
  {
    hide Counters.AllCount, S.Config, S.Apply, AllWellFormed;
    Counters.StepCounts(s, a);
    if S.Enabled(s, a) {
      Schedules.StepShrinks(s, a);
    } else {
      Conservation.Disabled(s, a);
    }
  }

  lemma FitsShape(m: R.Machine, w: State)
    requires Fits(m, w)
    ensures C.Shape(w.c)
  {
  }

  // The system moves, and no unit's reads change.
  lemma ReadsAside(m: R.Machine, w: State, a: S.Action)
    requires Fits(m, w) && Sound(m, w) && ToOwnWriter(m, a)
    requires !AtMemory(a) || (a.Carry? && a.r.WriterToCache?)
    ensures var w' := w.(s := S.Apply(w.s, a)); Fits(m, w') && Sound(m, w')
  {
    hide WritersLinked, Counters.AllCount, S.Config, R.Inv, T.Inv, Gather;
    hide T.Between, S.Apply, Reads, IdleClause, AllWellFormed, AtMemory;
    WritersKept(m, w.s, w.r, a, w.r.fed);
    SystemKept(w.s, a);
    InnerUnits(w.s, a);
    forall u | Reader(m, u) ensures multiset(Reads(S.Apply(w.s, a), u)) == Gather(Away(u), w.r.parcels) {
      InnerReads(w.s, a, u);
    }
    forall c | 0 <= c < |w.s.cs| && c !in w.r.fed ensures IdleClause(S.Apply(w.s, a), c) {
      NotDispatch(a, c);
      IdleKept(w.s, a, c);
    }
  }

  lemma NotDispatch(a: S.Action, c: nat)
    requires !AtMemory(a) || (a.Carry? && a.r.WriterToCache?)
    ensures a.Carry? ==> a.r != S.NetworkToClause(c)
  {
  }

  lemma InnerUnits(s: S.System, a: S.Action)
    ensures SameUnits(s, S.Apply(s, a))
  {
    hide S.CarryStep, S.Watcher.Step, S.Clause.Step, S.Ready, SameUnits;
    if S.Enabled(s, a) {
      match a
      case WatcherStage(w, st) => assert SameUnits(s, S.Apply(s, a)) by { StageUnits(s, a); }
      case ClauseStage(c, st) => assert SameUnits(s, S.Apply(s, a)) by { StageUnits(s, a); }
      case WriterStage(k) => assert SameUnits(s, S.Apply(s, a)) by { StageUnits(s, a); }
      case Carry(r, j) => CarryGet(s, r, j, S.From(r).0, WMem);
    } else {
      StageUnits(s, a);
    }
  }

  lemma StageUnits(s: S.System, a: S.Action)
    requires !a.Carry? || !S.Enabled(s, a)
    ensures SameUnits(s, S.Apply(s, a))
  {
    hide S.Watcher.Step, S.Clause.Step, S.Ready;
  }

  // A parcel moves, and neither the units nor the cache notice.
  lemma ParcelMoves(m: R.Machine, w: State, y: R.Parcel)
    requires Fits(m, w) && Sound(m, w) && y in w.r.parcels && (y.at.In? || y.at.Flight?)
    ensures var w' := w.(r := R.Apply(m, w.r, R.Move(y))); Fits(m, w') && Sound(m, w')
  {
    hide WritersLinked, Counters.AllCount, S.Config, R.Inv, T.Inv, Gather, T.Between, Reads, IdleClause, AllWellFormed;
    var y' := R.Hop(m, y);
    R.StepOnRoute(m, w.r, R.Move(y));
    forall u | Reader(m, u)
      ensures Gather(Away(u), w.r.parcels - multiset{y} + multiset{y'}) == Gather(Away(u), w.r.parcels)
    {
      GatherKept(Away(u), w.r.parcels, y, y');
    }
    forall p: nat | p < |w.c.ins|
      ensures Gather(Inside(p), w.r.parcels - multiset{y} + multiset{y'}) == Gather(Inside(p), w.r.parcels)
    {
      GatherKept(Inside(p), w.r.parcels, y, y');
    }
  }

  // The cache moves by itself.
  lemma CacheMoves(m: R.Machine, w: State, e: C.Action)
    requires Fits(m, w) && Sound(m, w) && C.Enabled(w.c, e) && C.Legal(w.c, e) && !e.Arrive? && !e.Take?
    ensures Fits(m, CacheStep(w, e)) && Sound(m, CacheStep(w, e))
  {
    hide WritersLinked, Counters.AllCount, S.Config, R.Inv, T.Inv, Gather;
    hide T.Between, Reads, IdleClause, AllWellFormed, C.Apply, T.Note;
    hide C.Enabled, C.Legal;
    FitsShape(m, w);
    InvTable(w.c, w.h);
    T.StepKeeps(w.c, w.h, e);
    CacheWidth(w.c, w.h, e);
    forall p: nat | p < |w.c.ins| ensures T.Between(C.Apply(w.c, e), p) == T.Between(w.c, p) {
      T.QuietBetween(w.c, e, p);
    }
  }

  lemma InvTable(c: C.State, h: T.History)
    requires C.Shape(c) && T.Inv(c, h)
    ensures T.Table(c)
  {
    hide T.Table, T.Flow;
  }

  lemma CacheWidth(c: C.State, h: T.History, e: C.Action)
    requires C.Shape(c) && |h.accepted| == |h.taken| == |c.ins|
    ensures |C.Apply(c, e).ins| == |c.ins| && C.Shape(C.Apply(c, e))
    ensures |T.Note(c, h, e).accepted| == |T.Note(c, h, e).taken| == |c.ins|
  {
    hide C.Apply;
  }

  // A request reaches the cache. Its partition is the one of its address.
  lemma EnterLegal(m: R.Machine, k: nat, w: State, y: R.Parcel)
    requires Fits(m, w) && Sound(m, w) && Partitioned(m, k)
    requires y in w.r.parcels && y.at.Out? && m.nW <= y.at.n < m.nW + m.nP
    ensures var e := C.Arrive(y.at.n - m.nW, AccessOf(y)); C.Enabled(w.c, e) && C.Legal(w.c, e)
    ensures R.Hop(m, y).at == if R.IsWrite(y.x.req.kind) then R.Absorbed else R.L3(y.at.n - m.nW)
  {
    hide WritersLinked, Counters.AllCount, S.Config, T.Inv, Gather, T.Between;
    hide Reads, IdleClause, AllWellFormed, R.Group, C.Part, C.Block;
    R.HopOnRoute(m, y);
    AddressMap.OwnPartition(y.x.addr, k);
  }

  lemma EnterKeeps(m: R.Machine, k: nat, w: State, y: R.Parcel)
    requires Fits(m, w) && Sound(m, w) && Partitioned(m, k) && Possible(m, w, Enter(y))
    ensures Fits(m, Next(m, w, Enter(y))) && Sound(m, Next(m, w, Enter(y)))
  {
    hide WritersLinked, Counters.AllCount, S.Config, R.Inv, T.Inv, Gather, T.Between, Reads, IdleClause, AllWellFormed;
    hide C.Apply, T.Note, C.Legal, AccessOf;
    var i, y' := y.at.n - m.nW, R.Hop(m, y);
    var e := C.Arrive(i, AccessOf(y));
    EnterLegal(m, k, w, y);
    FitsShape(m, w);
    R.StepOnRoute(m, w.r, R.Move(y));
    T.StepKeeps(w.c, w.h, e);
    CacheWidth(w.c, w.h, e);
    var ps, ps' := w.r.parcels, w.r.parcels - multiset{y} + multiset{y'};
    forall u | Reader(m, u) ensures Gather(Away(u), ps') == Gather(Away(u), ps) {
      GatherKept(Away(u), ps, y, y');
    }
    AccessKept(m, y);
    forall p: nat | p < |w.c.ins| ensures Gather(Inside(p), ps') == T.Between(C.Apply(w.c, e), p) {
      EnterInside(ps, w.c, i, y, y', p);
    }
  }

  lemma EnterInside(ps: multiset<R.Parcel>, c: C.State, i: nat, y: R.Parcel, y': R.Parcel, p: nat)
    requires C.Shape(c) && C.Enabled(c, C.Arrive(i, AccessOf(y))) && p < |c.ins| && y in ps && !y.at.L3?
    requires y'.at == (if AccessOf(y).write then R.Absorbed else R.L3(i)) && AccessOf(y') == AccessOf(y)
    requires Gather(Inside(p), ps) == T.Between(c, p)
    ensures Gather(Inside(p), ps - multiset{y} + multiset{y'}) == T.Between(C.Apply(c, C.Arrive(i, AccessOf(y))), p)
  {
    hide Gather, T.Between, AccessOf, C.Apply;
    T.ArriveBetween(c, i, AccessOf(y), p);
    GatherMove(Inside(p), ps, y, y');
  }

  lemma AccessKept(m: R.Machine, y: R.Parcel)
    requires R.Fits(m)
    ensures AccessOf(R.Hop(m, y)) == AccessOf(y)
    ensures AccessOf(y).write == R.IsWrite(y.x.req.kind)
  {
  }

  // An answer leaves the cache.
  lemma AnswerKeeps(m: R.Machine, w: State, y: R.Parcel)
    requires Fits(m, w) && Sound(m, w) && Possible(m, w, Answer(y))
    ensures Fits(m, Next(m, w, Answer(y))) && Sound(m, Next(m, w, Answer(y)))
  {
    hide WritersLinked, Counters.AllCount, S.Config, R.Inv, T.Inv, Gather, T.Between, Reads, IdleClause, AllWellFormed;
    hide C.Apply, T.Note, AccessOf;
    var i, y' := y.at.p, R.Hop(m, y);
    var e := C.Take(i);
    FitsShape(m, w);
    R.StepOnRoute(m, w.r, R.Move(y));
    T.StepKeeps(w.c, w.h, e);
    CacheWidth(w.c, w.h, e);
    var ps, ps' := w.r.parcels, w.r.parcels - multiset{y} + multiset{y'};
    forall u | Reader(m, u) ensures Gather(Away(u), ps') == Gather(Away(u), ps) {
      GatherKept(Away(u), ps, y, y');
    }
    forall p: nat | p < |w.c.ins| ensures Gather(Inside(p), ps') == T.Between(C.Apply(w.c, e), p) {
      AnswerInside(ps, w.c, i, y, y', p);
    }
  }

  lemma AnswerInside(ps: multiset<R.Parcel>, c: C.State, i: nat, y: R.Parcel, y': R.Parcel, p: nat)
    requires C.Shape(c) && C.Enabled(c, C.Take(i)) && p < |c.ins| && y in ps && y.at == R.L3(i) && !y'.at.L3?
    requires c.outs[i][0] == AccessOf(y) && Gather(Inside(p), ps) == T.Between(c, p)
    ensures Gather(Inside(p), ps - multiset{y} + multiset{y'}) == T.Between(C.Apply(c, C.Take(i)), p)
  {
    hide Gather, T.Between, AccessOf, C.Apply;
    T.TakeBetween(c, i, p);
    GatherMove(Inside(p), ps, y, y');
    Cancel(Gather(Inside(p), ps - multiset{y} + multiset{y'}), T.Between(C.Apply(c, C.Take(i)), p), Inside(p)(y));
  }

  // A write is issued. No unit waits for it, and it is not in the cache.
  lemma WriteIssued(m: R.Machine, w: State, e: R.Action)
    requires Fits(m, w) && Sound(m, w) && e.Issue? && R.Enabled(m, w.r, e) && R.IsWrite(e.req.kind)
    ensures var w' := w.(r := R.Apply(m, w.r, e)); Fits(m, w') && Sound(m, w') && w'.r.fed == w.r.fed
  {
    hide WritersLinked, Counters.AllCount, S.Config, R.Inv, T.Inv, Gather, T.Between, Reads, IdleClause, AllWellFormed;
    hide R.MayIssue;
    var y := R.Issued(m, e.id, e.req, e.addr, e.issuer);
    R.StepOnRoute(m, w.r, e);
    IssuedIs(m, e.id, e.req, e.addr, e.issuer);
    forall u | Reader(m, u) ensures Gather(Away(u), w.r.parcels + multiset{y}) == Gather(Away(u), w.r.parcels) {
      GatherAdd(Away(u), w.r.parcels, y);
    }
    forall p: nat | p < |w.c.ins|
      ensures Gather(Inside(p), w.r.parcels + multiset{y}) == Gather(Inside(p), w.r.parcels)
    {
      GatherAdd(Inside(p), w.r.parcels, y);
    }
  }

  // A clause leaves its writer, and it leaves as a write.
  lemma WriteBackKeeps(m: R.Machine, w: State, t: Step)
    requires Fits(m, w) && Sound(m, w) && t.WriteBack? && Possible(m, w, t)
    ensures Get(w.s.ks[t.k], KOut)[0].kind.WriteClause?
    ensures Fits(m, Next(m, w, t)) && Sound(m, Next(m, w, t))
  {
    hide Sound, R.Apply, S.Apply, R.Serves;
    var a := S.Carry(S.WriterToCache(t.k), 0);
    var e := R.Issue(t.id, Get(w.s.ks[t.k], KOut)[0], t.addr, R.Clause(t.c));
    FrontIsWrite(m, w, t.k);
    WriteIssued(m, w, e);
    ReadsAside(m, w.(r := R.Apply(m, w.r, e)), a);
  }

  lemma FrontIsWrite(m: R.Machine, w: State, k: nat)
    requires Fits(m, w) && Sound(m, w) && k < |w.s.ks| && Get(w.s.ks[k], KOut) != []
    ensures Get(w.s.ks[k], KOut)[0].kind == WriteClause && Fed(m, w.r.fed, k)
  {
    hide Counters.AllCount, S.Config, R.Inv, T.Inv, Gather, T.Between, Reads, IdleClause, AllWellFormed, Fed;
    assert Get(w.s.ks[k], KOut)[0] in Get(w.s.ks[k], KOut);
  }

  lemma IssuedIs(m: R.Machine, id: int, req: Req, addr: nat, u: R.Unit)
    requires R.Fits(m)
    ensures var y := R.Issued(m, id, req, addr, u);
            y.x.issuer == u && y.x.req == req && !y.at.L3? && !y.at.Returned?
  {
  }

  // A task comes out of its network.
  lemma DispatchKeeps(m: R.Machine, w: State, i: nat, j: nat)
    requires Fits(m, w) && Sound(m, w) && Possible(m, w, Dispatch(i, j))
    ensures Fits(m, Next(m, w, Dispatch(i, j))) && Sound(m, Next(m, w, Dispatch(i, j)))
  {
    hide WritersLinked, Counters.AllCount, S.Config, R.Inv, T.Inv, Gather, T.Between, Reads, IdleClause, AllWellFormed;
    hide S.Apply, R.DispatchIndex;
    var c := Dispatched(m, w, i);
    var a := S.Carry(S.NetworkToClause(c), j);
    R.DispatchInRange(m, i, R.NextClause(m, w.r.next));
    R.StepOnRoute(m, w.r, R.Dispatch(i));
    WritersKept(m, w.s, w.r, a, w.r.fed + {c});
    SystemKept(w.s, a);
    InnerUnits(w.s, a);
    forall u | Reader(m, u) ensures Reads(S.Apply(w.s, a), u) == Reads(w.s, u) {
      TaskReads(w.s, c, j, u);
    }
    var fed := w.r.fed + {c};
    forall c' | 0 <= c' < |w.s.cs| && c' !in fed ensures IdleClause(S.Apply(w.s, a), c') {
      IdleKept(w.s, a, c');
    }
  }

  lemma TaskReads(s: S.System, c: nat, j: nat, u: R.Unit)
    requires !u.ListWriter? && S.Exists(s, WhereOf(u)) && c < |s.cs| && j < |Get(s.top, CNet)|
    ensures var s' := S.Apply(s, S.Carry(S.NetworkToClause(c), j));
            S.Exists(s', WhereOf(u)) && Reads(s', u) == Reads(s, u)
  {
    hide S.CarryStep;
    CarryGet(s, S.NetworkToClause(c), j, WhereOf(u), MemPlace(u));
  }

  // A read leaves its unit.
  lemma LeavingTaken(m: R.Machine, w: State, u: R.Unit)
    requires Fits(m, w) && Sound(m, w) && Reader(m, u) && Get(S.QueuesOf(w.s, WhereOf(u)), OutPlace(u)) != []
    ensures S.Enabled(w.s, S.Carry(Leaving(u), 0))
    ensures R.MayIssue(m, w.r, u, Get(S.QueuesOf(w.s, WhereOf(u)), OutPlace(u))[0].kind)
    ensures !R.IsWrite(Get(S.QueuesOf(w.s, WhereOf(u)), OutPlace(u))[0].kind)
  {
    hide WritersLinked, Counters.AllCount, S.Config, T.Inv, Gather, T.Between, Reads, R.Inv;
    var a := S.Carry(Leaving(u), 0);
    assert S.Enabled(w.s, a);
    Conservation.TakenIsHeld(w.s, a);
    assert WellFormed(S.TakenToken(w.s, a));
  }

  lemma LeaveReads(s: S.System, u: R.Unit, v: R.Unit)
    requires !u.ListWriter? && !v.ListWriter? && S.Exists(s, WhereOf(v)) && S.Enabled(s, S.Carry(Leaving(u), 0))
    ensures var s' := S.Apply(s, S.Carry(Leaving(u), 0));
            S.Exists(s', WhereOf(v)) && Reads(s', v)
            == Reads(s, v) + if v == u then [Get(S.QueuesOf(s, WhereOf(u)), OutPlace(u))[0]] else []
  {
    hide S.CarryStep;
    CarryGet(s, Leaving(u), 0, WhereOf(v), MemPlace(v));
    assert Reads(s, v) + [] == Reads(s, v);
  }

  lemma SendKeeps(m: R.Machine, w: State, t: Step)
    requires Fits(m, w) && Sound(m, w) && t.Send? && Possible(m, w, t)
    ensures Fits(m, Next(m, w, t)) && Sound(m, Next(m, w, t))
  {
    hide WritersLinked, Counters.AllCount, S.Config, R.Inv, T.Inv, Gather, T.Between, Reads, IdleClause, AllWellFormed;
    hide R.MayIssue, S.Apply, S.Enabled;
    var req := Get(S.QueuesOf(w.s, WhereOf(t.u)), OutPlace(t.u))[0];
    var a, e := S.Carry(Leaving(t.u), 0), R.Issue(t.id, req, t.addr, t.u);
    var y := R.Issued(m, t.id, req, t.addr, t.u);
    LeavingTaken(m, w, t.u);
    IssuedIs(m, t.id, req, t.addr, t.u);
    R.StepOnRoute(m, w.r, e);
    WritersKept(m, w.s, w.r, a, w.r.fed);
    SystemKept(w.s, a);
    InnerUnits(w.s, a);
    forall u | Reader(m, u)
      ensures multiset(Reads(S.Apply(w.s, a), u)) == Gather(Away(u), w.r.parcels + multiset{y})
    {
      LeaveReads(w.s, t.u, u);
      GatherAdd(Away(u), w.r.parcels, y);
      assert multiset(Reads(w.s, u) + [req]) == multiset(Reads(w.s, u)) + multiset{req};
    }
    forall p: nat | p < |w.c.ins|
      ensures Gather(Inside(p), w.r.parcels + multiset{y}) == Gather(Inside(p), w.r.parcels)
    {
      GatherAdd(Inside(p), w.r.parcels, y);
    }
    forall c | 0 <= c < |w.s.cs| && c !in w.r.fed ensures IdleClause(S.Apply(w.s, a), c) {
      IdleKept(w.s, a, c);
    }
  }

  // An answer comes home: to the unit that issued the request.
  lemma HomeIs(m: R.Machine, w: State, y: R.Parcel)
    requires Fits(m, w) && Sound(m, w) && y in w.r.parcels && R.Hop(m, y).at.Returned?
    requires y.at.Private? || (y.at.Out? && y.at.n < m.nW)
    ensures R.Hop(m, y).at.u == y.x.issuer && !R.IsWrite(y.x.req.kind) && Reader(m, y.x.issuer)
  {
    hide WritersLinked, Counters.AllCount, S.Config, T.Inv, Gather, T.Between, Reads, R.Group;
    R.HopOnRoute(m, y);
  }

  lemma ComeReads(s: S.System, u: R.Unit, j: nat, v: R.Unit)
    requires !u.ListWriter? && !v.ListWriter? && S.Exists(s, WhereOf(u)) && S.Exists(s, WhereOf(v)) && j < |Reads(s, u)|
    ensures var s' := S.Apply(s, S.Carry(Coming(u), j));
            S.Exists(s', WhereOf(v)) && Reads(s', v)
            == if v == u then Reads(s, u)[..j] + Reads(s, u)[j + 1..] else Reads(s, v)
  {
    hide S.CarryStep;
    assert S.Enabled(s, S.Carry(Coming(u), j));
    CarryGet(s, Coming(u), j, WhereOf(v), MemPlace(v));
  }

  lemma DropOne<X>(q: seq<X>, j: nat)
    requires j < |q|
    ensures multiset(q) == multiset(q[..j] + q[j + 1..]) + multiset{q[j]}
  {
    assert q == q[..j] + [q[j]] + q[j + 1..];
  }

  lemma HomeKeeps(m: R.Machine, w: State, y: R.Parcel, j: nat)
    requires Fits(m, w) && Sound(m, w) && Possible(m, w, Home(y, j))
    ensures Fits(m, Next(m, w, Home(y, j))) && Sound(m, Next(m, w, Home(y, j)))
  {
    hide WritersLinked, Counters.AllCount, S.Config, R.Inv, T.Inv, Gather, T.Between, Reads, IdleClause, AllWellFormed;
    hide S.Apply;
    var y', u0 := R.Hop(m, y), y.x.issuer;
    HomeIs(m, w, y);
    var a := S.Carry(Coming(u0), j);
    R.StepOnRoute(m, w.r, R.Move(y));
    WritersKept(m, w.s, w.r, a, w.r.fed);
    SystemKept(w.s, a);
    InnerUnits(w.s, a);
    var ps, ps' := w.r.parcels, w.r.parcels - multiset{y} + multiset{y'};
    forall u | Reader(m, u) ensures multiset(Reads(S.Apply(w.s, a), u)) == Gather(Away(u), ps') {
      HomeReads(w.s, ps, u0, y, y', j, u);
    }
    forall p: nat | p < |w.c.ins| ensures Gather(Inside(p), ps') == Gather(Inside(p), ps) {
      GatherKept(Inside(p), ps, y, y');
    }
    forall c | 0 <= c < |w.s.cs| && c !in w.r.fed ensures IdleClause(S.Apply(w.s, a), c) {
      IdleKept(w.s, a, c);
    }
  }

  lemma HomeReads(s: S.System, ps: multiset<R.Parcel>, u0: R.Unit, y: R.Parcel, y': R.Parcel, j: nat, u: R.Unit)
    requires !u.ListWriter? && !u0.ListWriter? && S.Exists(s, WhereOf(u)) && S.Exists(s, WhereOf(u0))
    requires y in ps && y.x.issuer == u0 && !R.IsWrite(y.x.req.kind) && !y.at.Returned?
    requires y'.at.Returned? && j < |Reads(s, u0)| && Reads(s, u0)[j] == y.x.req
    requires multiset(Reads(s, u)) == Gather(Away(u), ps)
    ensures multiset(Reads(S.Apply(s, S.Carry(Coming(u0), j)), u)) == Gather(Away(u), ps - multiset{y} + multiset{y'})
  {
    hide Gather, Reads, S.Apply;
    ComeReads(s, u0, j, u);
    if u != u0 {
      GatherKept(Away(u), ps, y, y');
    } else {
      GatherMove(Away(u), ps, y, y');
      DropOne(Reads(s, u), j);
      var rest, after := Reads(s, u)[..j] + Reads(s, u)[j + 1..], Gather(Away(u), ps - multiset{y} + multiset{y'});
      assert after + multiset{} == after;
      Cancel(multiset(rest), after, multiset{y.x.req});
    }
  }

  lemma StepKeeps(m: R.Machine, k: nat, w: State, t: Step)
    requires Fits(m, w) && Sound(m, w) && Partitioned(m, k)
    ensures Fits(m, Next(m, w, t)) && Sound(m, Next(m, w, t))
  {
    hide Sound, Partitioned, S.Apply, R.Apply;
    if Possible(m, w, t) {
      match t
      case Inner(a) => ReadsAside(m, w, a);
      case Dispatch(i, j) => DispatchKeeps(m, w, i, j);
      case Send(_, _, _) => SendKeeps(m, w, t);
      case WriteBack(_, _, _, _) => WriteBackKeeps(m, w, t);
      case SendWrite(i, id, req, addr) => WriteIssued(m, w, R.Issue(id, req, addr, R.ListWriter(i)));
      case Hop(y) => ParcelMoves(m, w, y);
      case Enter(y) => EnterKeeps(m, k, w, y);
      case InCache(e) => CacheMoves(m, w, e);
      case Answer(y) => AnswerKeeps(m, w, y);
      case Home(y, j) => HomeKeeps(m, w, y, j);
    }
  }

  // An accelerator at rest but for its trail.
  ghost function StartOf(m: R.Machine, trail: seq<Req>, nk: nat): (w: State)
    requires R.Fits(m)
    ensures Fits(m, w)
  {
    State(S.Start(trail, m.nW, m.nC, nk), R.Start(), C.Start(m.nP), T.NoHistory(m.nP))
  }

  ghost function Run(m: R.Machine, w: State, ts: seq<Step>): (w': State)
    requires Fits(m, w)
    ensures Fits(m, w')
    decreases |ts|
  {
    if ts == [] then w
    else
      var before := Run(m, w, ts[..|ts| - 1]);
      NextFits(m, before, ts[|ts| - 1]);
      Next(m, before, ts[|ts| - 1])
  }

  lemma NextFits(m: R.Machine, w: State, t: Step)
    requires Fits(m, w)
    ensures Fits(m, Next(m, w, t))
  {
    hide C.Apply, T.Note, S.Apply, R.Apply, C.Enabled, C.Legal;
    FitsShape(m, w);
    if t.Inner? { InnerUnits(w.s, t.a); }
    if t.Dispatch? { InnerUnits(w.s, S.Carry(S.NetworkToClause(Dispatched(m, w, t.i)), t.j)); }
    if t.WriteBack? { InnerUnits(w.s, S.Carry(S.WriterToCache(t.k), 0)); }
    if t.Send? && !t.u.ListWriter? { InnerUnits(w.s, S.Carry(Leaving(t.u), 0)); }
    if t.Home? && Possible(m, w, t) { InnerUnits(w.s, S.Carry(Coming(R.Hop(m, t.y).at.u), t.j)); }
    if t.Enter? && Possible(m, w, t) { CacheWidth(w.c, w.h, C.Arrive(t.y.at.n - m.nW, AccessOf(t.y))); }
    if t.InCache? { CacheWidth(w.c, w.h, t.e); }
    if t.Answer? && Possible(m, w, t) { CacheWidth(w.c, w.h, C.Take(t.y.at.p)); }
  }

  lemma StartSound(m: R.Machine, trail: seq<Req>, nk: nat)
    requires R.Fits(m)
    ensures Sound(m, StartOf(m, trail, nk))
  {
    hide WritersLinked, Counters.AllCount, S.Config, T.Inv, Gather, T.Between, AllWellFormed;
    var w := StartOf(m, trail, nk);
    Schedules.StartConfig(trail, m.nW, m.nC, nk);
    Counters.StartCounts(trail, m.nW, m.nC, nk);
    T.StartInv(m.nP);
    FitsShape(m, w);
    StartWriters(m, trail, nk);
    forall u | Reader(m, u) ensures multiset(Reads(w.s, u)) == Gather(Away(u), multiset{}) {
      GatherNone(Away(u));
      StartReads(trail, m, nk, u);
    }
    forall p: nat | p < m.nP ensures T.Between(w.c, p) == Gather(Inside(p), multiset{}) {
      GatherNone(Inside(p));
      StartBetween(m.nP, p);
    }
    forall c: nat | c < m.nC ensures IdleClause(w.s, c) {
    }
  }

  lemma StartWriters(m: R.Machine, trail: seq<Req>, nk: nat)
    requires R.Fits(m)
    ensures WritersLinked(m, S.Start(trail, m.nW, m.nC, nk), {})
  {
    hide AllWrites;
    StartWrites(trail, m.nW, m.nC, nk);
  }

  lemma StartReads(trail: seq<Req>, m: R.Machine, nk: nat, u: R.Unit)
    requires Reader(m, u)
    ensures S.Exists(S.Start(trail, m.nW, m.nC, nk), WhereOf(u))
    ensures Reads(S.Start(trail, m.nW, m.nC, nk), u) == []
  {
  }

  lemma StartBetween(n: nat, p: nat)
    requires p < n
    ensures T.Between(C.Start(n), p) == multiset{}
  {
    T.StartInv(n);
    hide T.Between, T.Table;
    assert T.NoHistory(n).accepted[p] == T.Between(C.Start(n), p) + T.NoHistory(n).taken[p];
  }

  // In every run the three agree.
  lemma {:induction false} RunSound(m: R.Machine, k: nat, trail: seq<Req>, nk: nat, ts: seq<Step>)
    requires R.Fits(m) && Partitioned(m, k)
    ensures Sound(m, Run(m, StartOf(m, trail, nk), ts))
    decreases |ts|
  {
    hide Sound, Fits, Next, StartOf, Partitioned, R.Fits;
    if ts == [] {
      StartSound(m, trail, nk);
    } else {
      RunSound(m, k, trail, nk, ts[..|ts| - 1]);
      StepKeeps(m, k, Run(m, StartOf(m, trail, nk), ts[..|ts| - 1]), ts[|ts| - 1]);
    }
  }

  // What acc::empty() looks at: the trail, the networks, the units, the private
  // caches and the L3 with its DRAM. It does not look for outstanding reads.
  predicate InMemory(v: S.Where, p: Place) { (v.W? && p.WMem?) || (v.C? && p.CMem?) }

  ghost predicate LooksEmpty(w: State)
  {
    && (forall v, p :: S.Exists(w.s, v) && !InMemory(v, p) ==> Get(S.QueuesOf(w.s, v), p) == [])
    && (forall y :: y in w.r.parcels ==> !y.at.In? && !y.at.Flight? && !y.at.Out? && !y.at.Private?)
    && C.Empty(w.c)
  }

  lemma {:induction false} GatherNothing<T(!new), U(!new)>(f: T -> multiset<U>, ps: multiset<T>)
    requires forall y :: y in ps ==> f(y) == multiset{}
    ensures Gather(f, ps) == multiset{}
    decreases |ps|
  {
    hide Gather;
    if ps == multiset{} {
      GatherNone(f);
    } else {
      var y :| y in ps;
      GatherPick(f, ps, y);
      GatherNothing(f, ps - multiset{y});
    }
  }

  lemma {:induction false} GatherMember<T(!new), U(!new)>(f: T -> multiset<U>, ps: multiset<T>, x: U) returns (y: T)
    requires x in Gather(f, ps)
    ensures y in ps && x in f(y)
    decreases |ps|
  {
    if ps == multiset{} { GatherNone(f); }
    hide Gather;
    y :| y in ps;
    GatherPick(f, ps, y);
    if x !in f(y) {
      y := GatherMember(f, ps - multiset{y}, x);
    }
  }

  lemma OneIsSome<U>(x: U, rest: multiset<U>)
    ensures multiset{x} + rest != multiset{}
  {
    assert x in multiset{x} + rest;
  }

  lemma NothingInside(m: R.Machine, w: State, y: R.Parcel)
    requires Fits(m, w) && Sound(m, w) && C.Empty(w.c) && y in w.r.parcels
    ensures !y.at.L3?
  {
    hide WritersLinked, Counters.AllCount, S.Config, Gather, T.Between;
    hide Reads, IdleClause, AllWellFormed, R.Group, T.Inv, C.Empty;
    FitsShape(m, w);
    if y.at.L3? {
      var p := y.at.p;
      T.NothingBetween(w.c, p);
      GatherPick(Inside(p), w.r.parcels, y);
      OneIsSome(AccessOf(y), Gather(Inside(p), w.r.parcels - multiset{y}));
    }
  }

  lemma NothingOutstanding(m: R.Machine, w: State, u: R.Unit)
    requires Fits(m, w) && Sound(m, w) && LooksEmpty(w) && Reader(m, u)
    ensures Reads(w.s, u) == []
  {
    hide WritersLinked, Counters.AllCount, S.Config, Gather, T.Between;
    hide Reads, IdleClause, AllWellFormed, R.Group, T.Inv, C.Empty;
    forall y | y in w.r.parcels ensures Away(u)(y) == multiset{} {
      NothingInside(m, w, y);
    }
    GatherNothing(Away(u), w.r.parcels);
    assert |multiset(Reads(w.s, u))| == 0;
  }

  lemma LooksEmptyIsEmpty(m: R.Machine, w: State)
    requires Fits(m, w) && Sound(m, w) && LooksEmpty(w)
    ensures Counters.Empty(w.s)
    ensures forall i :: 0 <= i < m.nW ==>
      w.s.ws[i].inflight == 0 && w.s.ws[i].outData == 0 && w.s.ws[i].outValue == 0
    ensures forall c :: 0 <= c < m.nC ==> w.s.cs[c].ongoing == 0 && w.s.cs[c].inflight == w.s.cs[c].lost
    ensures w.h.taken == w.h.accepted
    ensures forall y :: y in w.r.parcels ==> (y.at.Returned? && y.at.u == y.x.issuer) || y.at.Absorbed?
  {
    hide WritersLinked, Counters.AllCount, S.Config, Gather, T.Between, AllWellFormed;
    hide R.Group, T.Inv, C.Empty, ReadsLinked, CacheLinked;
    FitsShape(m, w);
    forall v, p | S.Exists(w.s, v) ensures Get(S.QueuesOf(w.s, v), p) == [] {
      if InMemory(v, p) {
        NothingOutstanding(m, w, if v.W? then R.Watcher(v.i) else R.Clause(v.i));
      }
    }
    Counters.EmptyMeansZero(w.s);
    T.EmptyMeansAnswered(w.c, w.h);
    forall y | y in w.r.parcels ensures (y.at.Returned? && y.at.u == y.x.issuer) || y.at.Absorbed? {
      NothingInside(m, w, y);
      R.HopOnRoute(m, y);
    }
  }

  // Quiescence soundness: when empty() holds in a run, no token is left anywhere,
  // every counter of every unit is zero but for the clauses a unit lost, every
  // read has been answered, and every request is back at its unit or written.
  lemma EmptyMeansDone(m: R.Machine, k: nat, trail: seq<Req>, nk: nat, ts: seq<Step>)
    requires R.Fits(m) && Partitioned(m, k)
    requires LooksEmpty(Run(m, StartOf(m, trail, nk), ts))
    ensures var w := Run(m, StartOf(m, trail, nk), ts);
            && Counters.Empty(w.s)
            && (forall i :: 0 <= i < m.nW ==>
                  w.s.ws[i].inflight == 0 && w.s.ws[i].outData == 0 && w.s.ws[i].outValue == 0)
            && (forall c :: 0 <= c < m.nC ==> w.s.cs[c].ongoing == 0 && w.s.cs[c].inflight == w.s.cs[c].lost)
            && w.h.taken == w.h.accepted
            && (forall y :: y in w.r.parcels ==> (y.at.Returned? && y.at.u == y.x.issuer) || y.at.Absorbed?)
  {
    hide Sound, LooksEmpty, Run, StartOf, Counters.Empty, Partitioned;
    RunSound(m, k, trail, nk, ts);
    LooksEmptyIsEmpty(m, Run(m, StartOf(m, trail, nk), ts));
  }

  // Nor does the guard of WriteBack: whatever is in the output of a clause writer
  // can leave, for a unit of that writer's share.
  lemma WriteBackPossible(m: R.Machine, w: State, k: nat, id: int, addr: nat)
    requires Fits(m, w) && Sound(m, w) && k < |w.s.ks| && Get(w.s.ks[k], KOut) != []
    ensures exists c: nat :: Possible(m, w, WriteBack(c, k, id, addr))
  {
    hide Sound, R.Serves;
    FrontIsWrite(m, w, k);
    var c :| c in w.r.fed && R.Serves(m, k, c);
    assert Possible(m, w, WriteBack(c, k, id, addr));
  }

  // A clause that was written back is on its way to the cache or has been
  // absorbed: it never waits there, never passes a private cache and never comes
  // back.
  lemma WriteBackNotAnswered(m: R.Machine, k: nat, trail: seq<Req>, nk: nat, ts: seq<Step>, y: R.Parcel)
    requires R.Fits(m) && Partitioned(m, k)
    requires y in Run(m, StartOf(m, trail, nk), ts).r.parcels
    requires y.x.req.kind.WriteClause? || y.x.req.kind.WriteWatcherList?
    ensures y.at.In? || y.at.Flight? || y.at.Out? || y.at.Absorbed?
    ensures y.at.Out? ==> y.at.n >= m.nW
  {
    hide Run, StartOf, Partitioned, Counters.AllCount, S.Config, Gather, T.Between, AllWellFormed;
    hide ReadsLinked, CacheLinked, FedLinked, WritersLinked, T.Inv, R.Group, R.Serves;
    RunSound(m, k, trail, nk, ts);
    R.HopOnRoute(m, y);
  }

  // The guards of Home and Answer never stop an answer: the unit it goes to has
  // that read outstanding, and what the cache gives back has a request to carry.
  lemma HomePossible(m: R.Machine, w: State, y: R.Parcel)
    requires Fits(m, w) && Sound(m, w) && y in w.r.parcels
    requires y.at.Private? || (y.at.Out? && y.at.n < m.nW)
    ensures exists j: nat :: Possible(m, w, Home(y, j))
  {
    hide WritersLinked, Counters.AllCount, S.Config, Gather, T.Between;
    hide Reads, IdleClause, AllWellFormed, R.Group, T.Inv, C.Empty;
    R.HopOnRoute(m, y);
    HomeIs(m, w, y);
    var u := y.x.issuer;
    GatherPick(Away(u), w.r.parcels, y);
    assert y.x.req in multiset(Reads(w.s, u));
    var j :| 0 <= j < |Reads(w.s, u)| && Reads(w.s, u)[j] == y.x.req;
    assert Possible(m, w, Home(y, j));
  }

  lemma AnswerPossible(m: R.Machine, w: State, p: nat)
    requires Fits(m, w) && Sound(m, w) && p < m.nP && w.c.outs[p] != []
    ensures exists y :: Possible(m, w, Answer(y))
  {
    hide WritersLinked, Counters.AllCount, S.Config, Gather, T.WaitingAt;
    hide T.ReadsIn, Reads, IdleClause, AllWellFormed, R.Inv, T.Inv;
    FitsShape(m, w);
    var x := w.c.outs[p][0];
    assert x in multiset(w.c.outs[p]);
    assert x in T.Between(w.c, p);
    var y := GatherMember(Inside(p), w.r.parcels, x);
    assert Possible(m, w, Answer(y));
  }

  // What a request on its way can do next; one inside the cache is there until
  // the cache gives it back.
  ghost predicate CanMove(m: R.Machine, w: State, y: R.Parcel)
    requires Fits(m, w)
  {
    match y.at
    case In(_) => Possible(m, w, Hop(y))
    case Flight => Possible(m, w, Hop(y))
    case Out(n) => if n < m.nW then exists j: nat :: Possible(m, w, Home(y, j)) else Possible(m, w, Enter(y))
    case Private(_) => exists j: nat :: Possible(m, w, Home(y, j))
    case L3(p) => p < m.nP && AccessOf(y) in T.Between(w.c, p)
    case Returned(_) => true
    case Absorbed => true
  }

  // In every run no request is stuck, and whatever read a unit has to send can leave.
  lemma NothingIsStuck(m: R.Machine, w: State, y: R.Parcel)
    requires Fits(m, w) && Sound(m, w) && y in w.r.parcels
    ensures CanMove(m, w, y)
  {
    hide WritersLinked, Counters.AllCount, S.Config, Gather, T.Between, Reads;
    hide IdleClause, AllWellFormed, R.Group, T.Inv, R.Serves;
    R.HopOnRoute(m, y);
    if y.at.Private? || (y.at.Out? && y.at.n < m.nW) {
      HomePossible(m, w, y);
    } else if y.at.L3? {
      FitsShape(m, w);
      GatherPick(Inside(y.at.p), w.r.parcels, y);
    }
  }

  lemma ReadsCanLeave(m: R.Machine, w: State, u: R.Unit, id: int, addr: nat)
    requires Fits(m, w) && Sound(m, w) && Reader(m, u) && Get(S.QueuesOf(w.s, WhereOf(u)), OutPlace(u)) != []
    ensures Possible(m, w, Send(u, id, addr))
    ensures |Next(m, w, Send(u, id, addr)).r.parcels| == |w.r.parcels| + 1
  {
    hide Sound, Reads, S.Apply, S.Enabled, R.MayIssue, R.Issued, Fits;
    FitsUnits(m, w, u);
    LeavingTaken(m, w, u);
  }

  lemma FitsUnits(m: R.Machine, w: State, u: R.Unit)
    requires Fits(m, w) && Reader(m, u)
    ensures R.Fits(m) && S.Exists(w.s, WhereOf(u))
  {
  }
}
