// The counters that the asserts and empty() rely on, in every run: what each one
// counts, that none goes below zero, and that all are zero at rest.
module Counters {
  import opened Bags
  import opened Conservation
  import opened Forest
  import opened Queues
  import opened Schedules
  import opened System
  import opened Tokens
  import Watcher
  import Clause

  // The token that stands for a list the watcher has begun. While a list is in
  // the memory its chunks are many, and the last one carries it.
  function ListToken(t: Token): nat
  {
    match t.p
    case WMeta => 1
    case WRead => 1
    case WValue => 1
    case WProc => 1
    case WOut => if CarriesList(t) then 1 else 0
    case WMem => if CarriesList(t) then 1 else 0
    case WResp => if CarriesList(t) then 1 else 0
    case _ => 0
  }

  predicate CarriesList(t: Token)
  {
    match t.kind
    case ReadWatcherMetaData => true
    case ReadWatcherData => t.w + CHUNK >= Size(t.a)
    case ReadWatcherValue => t.w + 1 >= Size(t.a)
    case _ => false
  }

  predicate WatcherReadPlace(p: Place) { p.WOut? || p.WMem? || p.WResp? }

  function DataToken(t: Token): nat { if WatcherReadPlace(t.p) && t.kind.ReadWatcherData? then 1 else 0 }

  function ValueToken(t: Token): nat { if WatcherReadPlace(t.p) && t.kind.ReadWatcherValue? then 1 else 0 }

  // The same for a clause that the clause unit has begun.
  function ClauseToken(t: Token): nat
  {
    match t.p
    case CData => 1
    case CValue => 1
    case CProc => 1
    case COut => if CarriesClause(t) then 1 else 0
    case CMem => if CarriesClause(t) then 1 else 0
    case CResp => if CarriesClause(t) then 1 else 0
    case _ => 0
  }

  predicate CarriesClause(t: Token)
  {
    if t.kind.ReadClauseData? then t.c + CHUNK >= Literals(t.a, t.w)
    else t.c + 1 >= Literals(t.a, t.w)
  }

  function InMemory(t: Token): nat { if t.p.CMem? then 1 else 0 }

  // num_inflight_request, outgoing_read_watcher_data and _value count tokens.
  ghost predicate WatcherCounts(u: Watcher.State)
  {
    && u.inflight == Total(ListToken, Held(u.q))
    && u.outData == Total(DataToken, Held(u.q))
    && u.outValue == Total(ValueToken, Held(u.q))
    && !u.thrown
  }

  // current_inflight_request counts the clauses in the unit and those it lost;
  // on_going_requests counts the reads inside the memory.
  ghost predicate ClauseCounts(u: Clause.State)
  {
    && u.inflight == Total(ClauseToken, Held(u.q)) + u.lost
    && u.ongoing == Total(InMemory, Held(u.q))
  }

  // The weight of a short list of tokens.
  function Weight(f: Token -> nat, s: seq<Token>): nat
  {
    (if |s| > 0 then f(s[0]) else 0)
    + (if |s| > 1 then f(s[1]) else 0)
    + (if |s| > 2 then f(s[2]) else 0)
  }

  lemma TotalWeight(f: Token -> nat, s: seq<Token>)
    requires |s| <= 3
    ensures Total(f, multiset(s)) == Weight(f, s)
  {
    hide Total;
    if |s| == 0 {
      TotalNone(f);
    } else if |s| == 1 {
      assert s == [s[0]];
      TotalOne(f, s[0]);
    } else if |s| == 2 {
      assert s == [s[0], s[1]];
      TotalTwo(f, s[0], s[1]);
    } else {
      assert s == [s[0], s[1], s[2]];
      TotalThree(f, s[0], s[1], s[2]);
    }
  }

  lemma FiresTotal(f: Token -> nat, b: multiset<Token>, t: Token, made: seq<Token>, b': multiset<Token>)
    requires |made| <= 3 && Fires(b, t, made, b')
    ensures Total(f, b') + f(t) == Total(f, b) + Weight(f, made)
  {
    hide Total;
    TotalPick(f, b, t);
    TotalUnion(f, b - multiset{t}, multiset(made));
    TotalWeight(f, made);
  }

  // Each list has, at all times, exactly one token that stands for it: a stage
  // that takes that token leaves exactly one, until the list is finished.
  lemma StageWeights(s: Watcher.Stage, r: Req)
    requires s.RespToInside? ==> WatcherRead(r.kind)
    ensures var t := Tok(Watcher.Source(s), r);
            && |Succ(t)| <= 3
            && Weight(ListToken, Succ(t)) == ListToken(t) + Watcher.Started(s, r)
            && Weight(DataToken, Succ(t)) == DataToken(t) + Watcher.DataIssued(s, r)
            && Weight(ValueToken, Succ(t)) == ValueToken(t) + Watcher.ValueIssued(s, r)
  {
  }

  lemma StageCounts(s: Watcher.Stage, u: Watcher.State)
    requires WatcherCounts(u)
    requires s.RespToInside? && Get(u.q, WResp) != [] ==> WatcherRead(Get(u.q, WResp)[0].kind)
    ensures WatcherCounts(Watcher.Step(s, u))
  {
    hide Held, Total, Weight, Succ, PutAll, Fires;
    if Get(u.q, Watcher.Source(s)) != [] {
      var r := Get(u.q, Watcher.Source(s))[0];
      var t, b' := Tok(Watcher.Source(s), r), Held(Watcher.Step(s, u).q);
      Watcher.StageFires(s, u);
      StageWeights(s, r);
      FiresTotal(ListToken, Held(u.q), t, Succ(t), b');
      FiresTotal(DataToken, Held(u.q), t, Succ(t), b');
      FiresTotal(ValueToken, Held(u.q), t, Succ(t), b');
    }
  }

  lemma ClauseStageWeights(s: Clause.Stage, u: Clause.State)
    requires !Clause.Idle(s, u)
    ensures var r := Get(u.q, Clause.Source(s))[0];
            var t, made := Tok(Clause.Source(s), r), PutToks(Clause.Puts(s, u, r));
            && |made| <= 3
            && Weight(ClauseToken, made) + (if Clause.Drops(s, u) then 1 else 0)
               == ClauseToken(t) + Clause.Started(s, r)
            && Weight(InMemory, made) == InMemory(t)
  {
  }

  lemma ClauseStageCounts(s: Clause.Stage, u: Clause.State)
    requires ClauseCounts(u)
    ensures ClauseCounts(Clause.Step(s, u))
  {
    hide Held, Total, Weight, PutAll, Fires, PutToks, Clause.Puts;
    if !Clause.Idle(s, u) {
      var r := Get(u.q, Clause.Source(s))[0];
      var t, b' := Tok(Clause.Source(s), r), Held(Clause.Step(s, u).q);
      Clause.StageFires(s, u);
      ClauseStageWeights(s, u);
      FiresTotal(ClauseToken, Held(u.q), t, PutToks(Clause.Puts(s, u, r)), b');
      FiresTotal(InMemory, Held(u.q), t, PutToks(Clause.Puts(s, u, r)), b');
    }
  }

  lemma DropTotal(f: Token -> nat, q: Queues, p: Place, j: nat)
    requires j < |Get(q, p)|
    ensures Total(f, Held(Drop(q, p, j))) + f(Tok(p, Get(q, p)[j])) == Total(f, Held(q))
  {
    hide Held, Total;
    DropHeld(q, p, j);
    TotalPick(f, Held(q), Tok(p, Get(q, p)[j]));
  }

  lemma PushTotal(f: Token -> nat, q: Queues, p: Place, x: Req)
    ensures Total(f, Held(Push(q, p, x))) == Total(f, Held(q)) + f(Tok(p, x))
  {
    hide Held, Total;
    PushHeld(q, p, x);
    TotalAdd(f, Held(q), Tok(p, x));
  }

  // A transfer changes a watcher's queues without changing what it counts.
  lemma WatcherCarry(u: Watcher.State, p: Place, j: nat, p': Place, x: Req)
    requires WatcherCounts(u)
    ensures p'.WTask? ==> WatcherCounts(u.(q := Push(u.q, p', x)))
    ensures (p.WList? || p.WSend?) && j < |Get(u.q, p)| ==> WatcherCounts(u.(q := Drop(u.q, p, j)))
    ensures ((p.WOut? && p'.WMem?) || (p.WMem? && p'.WResp?)) && j < |Get(u.q, p)| && Get(u.q, p)[j] == x ==>
      WatcherCounts(u.(q := Push(Drop(u.q, p, j), p', x)))
  {
    hide Held, Total, Drop, Push;
    PushTotal(ListToken, u.q, p', x);
    PushTotal(DataToken, u.q, p', x);
    PushTotal(ValueToken, u.q, p', x);
    if j < |Get(u.q, p)| {
      var q := Drop(u.q, p, j);
      DropTotal(ListToken, u.q, p, j);
      DropTotal(DataToken, u.q, p, j);
      DropTotal(ValueToken, u.q, p, j);
      PushTotal(ListToken, q, p', x);
      PushTotal(DataToken, q, p', x);
      PushTotal(ValueToken, q, p', x);
    }
  }

  lemma ClauseCarry(u: Clause.State, p: Place, j: nat, p': Place, x: Req)
    requires ClauseCounts(u)
    ensures p'.CTask? ==> ClauseCounts(u.(q := Push(u.q, p', x)))
    ensures (p.CGen? || p.CWrite?) && j < |Get(u.q, p)| ==> ClauseCounts(u.(q := Drop(u.q, p, j)))
    ensures p.COut? && p'.CMem? && j < |Get(u.q, p)| && Get(u.q, p)[j] == x ==>
      ClauseCounts(u.(q := Push(Drop(u.q, p, j), p', x), ongoing := u.ongoing + 1))
    ensures p.CMem? && p'.CResp? && j < |Get(u.q, p)| && Get(u.q, p)[j] == x ==>
      ClauseCounts(u.(q := Push(Drop(u.q, p, j), p', x), ongoing := u.ongoing - 1))
  {
    hide Held, Total, Drop, Push;
    PushTotal(ClauseToken, u.q, p', x);
    PushTotal(InMemory, u.q, p', x);
    if j < |Get(u.q, p)| {
      DropTotal(ClauseToken, u.q, p, j);
      DropTotal(InMemory, u.q, p, j);
      PushTotal(ClauseToken, Drop(u.q, p, j), p', x);
      PushTotal(InMemory, Drop(u.q, p, j), p', x);
    }
  }

  ghost predicate AllCount(s: System)
  {
    && (forall i :: 0 <= i < |s.ws| ==> WatcherCounts(s.ws[i]))
    && (forall i :: 0 <= i < |s.cs| ==> ClauseCounts(s.cs[i]))
  }

  lemma CarryCounts(s: System, r: Route, j: nat)
    requires AllCount(s) && Enabled(s, Carry(r, j))
    ensures AllCount(CarryStep(s, r, j))
  {
    hide WatcherCounts, ClauseCounts, Drop, Push;
    var (u, p) := From(r);
    var x := Get(QueuesOf(s, u), p)[j];
    match r
    case TrailToWatcher(w) => WatcherCarry(s.ws[w], WTask, 0, WTask, x);
    case WatcherToMemory(w) => WatcherCarry(s.ws[w], WOut, j, WMem, x);
    case MemoryToWatcher(w) => WatcherCarry(s.ws[w], WMem, j, WResp, x);
    case WatcherToListWriter(w) => WatcherCarry(s.ws[w], WList, j, Trail, x);
    case WatcherToNetwork(w) => WatcherCarry(s.ws[w], WSend, j, Trail, x);
    case NetworkToClause(c) => ClauseCarry(s.cs[c], CTask, 0, CTask, x);
    case ClauseToMemory(c) => ClauseCarry(s.cs[c], COut, j, CMem, x);
    case MemoryToClause(c) => ClauseCarry(s.cs[c], CMem, j, CResp, x);
    case ClauseToTrail(c) => ClauseCarry(s.cs[c], CGen, j, Trail, x);
    case ClauseToWriter(c, k) => ClauseCarry(s.cs[c], CWrite, j, Trail, x);
    case WriterToCache(k) =>
  }

  lemma StepCounts(s: System, a: Action)
    requires AllCount(s) && AllWellFormed(Config(s))
    ensures AllCount(Apply(s, a))
  {
    hide WatcherCounts, ClauseCounts, CarryStep, Config;
    if Enabled(s, a) {
      TakenIsHeld(s, a);
      assert WellFormed(TakenToken(s, a));
      match a
      case WatcherStage(w, st) => StageCounts(st, s.ws[w]);
      case ClauseStage(c, st) => ClauseStageCounts(st, s.cs[c]);
      case WriterStage(k) =>
      case Carry(r, j) => CarryCounts(s, r, j);
    }
  }

  // The counters count, in every state of every run.
  lemma {:induction false} RunCounts(s: System, acts: seq<Action>)
    requires AllCount(s) && AllWellFormed(Config(s))
    ensures AllCount(Run(s, acts)) && AllWellFormed(Config(Run(s, acts)))
    decreases |acts|
  {
    hide AllCount, AllWellFormed, Apply, Config;
    if acts != [] {
      var before := acts[..|acts| - 1];
      RunCounts(s, before);
      StepCounts(Run(s, before), acts[|acts| - 1]);
      Conserved(s, acts);
    }
  }

  lemma StartCounts(trail: seq<Req>, nw: nat, nc: nat, nk: nat)
    ensures AllCount(Start(trail, nw, nc, nk))
  {
    hide Held, Total;
    HeldOfEmpty(Watcher.Fresh());
    HeldOfEmpty(Clause.Fresh());
    TotalNone(ListToken);
    TotalNone(DataToken);
    TotalNone(ValueToken);
    TotalNone(ClauseToken);
    TotalNone(InMemory);
  }

  // acc::empty(): no entry in any queue, inside the memory included.
  ghost predicate Empty(s: System)
  {
    forall u, p :: Exists(s, u) ==> Get(QueuesOf(s, u), p) == []
  }

  lemma EmptyIsDrained(s: System)
    ensures Empty(s) <==> Config(s) == multiset{}
  {
    hide Held;
    if Config(s) == multiset{} {
      forall u, p | Exists(s, u) ensures Get(QueuesOf(s, u), p) == [] {
        WithQueuesSame(s, u, QueuesOf(s, u));
        ConfigUpdate(s, u, WithQueues(s, u, QueuesOf(s, u)));
        HeldEmpty(QueuesOf(s, u), p);
      }
    } else {
      var u, p := SomeEntry(s);
      assert Get(QueuesOf(s, u), p) != [];
    }
  }

  // At rest every counter is zero, but for the clauses a unit lost: those stay
  // in its current_inflight_request for ever.
  lemma EmptyMeansZero(s: System)
    requires AllCount(s) && Empty(s)
    ensures forall i :: 0 <= i < |s.ws| ==>
      s.ws[i].inflight == 0 && s.ws[i].outData == 0 && s.ws[i].outValue == 0
    ensures forall i :: 0 <= i < |s.cs| ==>
      s.cs[i].ongoing == 0 && s.cs[i].inflight == s.cs[i].lost
  {
    hide Held, Total;
    TotalNone(ListToken);
    TotalNone(DataToken);
    TotalNone(ValueToken);
    TotalNone(ClauseToken);
    TotalNone(InMemory);
    forall i | 0 <= i < |s.ws| ensures Held(s.ws[i].q) == multiset{} {
      UnitEmpty(s, W(i));
    }
    forall i | 0 <= i < |s.cs| ensures Held(s.cs[i].q) == multiset{} {
      UnitEmpty(s, C(i));
    }
  }

  lemma UnitEmpty(s: System, u: Where)
    requires Empty(s) && Exists(s, u)
    ensures Held(QueuesOf(s, u)) == multiset{}
  {
    var q := QueuesOf(s, u);
    forall p | p in q ensures q[p] == [] { assert Get(q, p) == []; }
    HeldOfEmpty(q);
  }
}
