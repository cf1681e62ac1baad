// What conservation says of whole runs: the work done does not depend on the
// schedule, every run is bounded, and no run gets stuck.
module Schedules {
  import opened Bags
  import opened Conservation
  import opened Forest
  import opened Queues
  import opened System
  import opened Tokens
  import Watcher
  import Clause
  import ClauseWriter

  // A drained run has done exactly the expansion of what it started with if and
  // only if no clause fell through.
  lemma DrainedLog(s: System, acts: seq<Action>)
    requires AllWellFormed(Config(s)) && Config(Run(s, acts)) == multiset{}
    ensures Books(s, acts).log + Books(s, acts).given == ExpandAll(Config(s))
    ensures Books(s, acts).log == ExpandAll(Config(s)) <==> Books(s, acts).falls == 0
  {
    hide Config, Expand;
    Conserved(s, acts);
    GatherNone(Expand);
    var b := Books(s, acts);
    assert b.log + b.given == ExpandAll(Config(s));
    if b.log == ExpandAll(Config(s)) {
      assert |b.log| + |b.given| == |b.log|;
    }
  }

  // Any two drained runs without a fall-through, on systems with any number of
  // units, have done the same work if they started with the same tokens.
  lemma ScheduleIndependence(s: System, acts: seq<Action>, s': System, acts': seq<Action>)
    requires Config(s) == Config(s') && AllWellFormed(Config(s))
    requires Config(Run(s, acts)) == multiset{} && Config(Run(s', acts')) == multiset{}
    requires Books(s, acts).falls == 0 && Books(s', acts').falls == 0
    ensures Books(s, acts).log == Books(s', acts').log
    ensures Moves(s, acts) == Moves(s', acts')
  {
    DrainedLog(s, acts);
    DrainedLog(s', acts');
    LogSize(s, acts);
    LogSize(s', acts');
  }

  // The number of actions of a run that moved something.
  ghost function Moves(s: System, acts: seq<Action>): nat
    decreases |acts|
  {
    if acts == [] then 0
    else
      var before := acts[..|acts| - 1];
      Moves(s, before) + if Enabled(Run(s, before), acts[|acts| - 1]) then 1 else 0
  }

  lemma {:induction false} LogSize(s: System, acts: seq<Action>)
    ensures |Books(s, acts).log| == Moves(s, acts)
    decreases |acts|
  {
    hide Enabled, TakenToken, GivenUp, Run;
    if acts != [] { LogSize(s, acts[..|acts| - 1]); }
  }

  // The size of the outstanding expansion bounds the moves of every run, so no
  // run moves for ever; a drained run without fall-through makes exactly that many.
  lemma RunsAreBounded(s: System, acts: seq<Action>)
    requires AllWellFormed(Config(s))
    ensures Moves(s, acts) + |ExpandAll(Config(Run(s, acts)))| <= |ExpandAll(Config(s))|
    ensures Books(s, acts).falls == 0 ==>
      Moves(s, acts) + |ExpandAll(Config(Run(s, acts)))| == |ExpandAll(Config(s))|
  {
    hide Config, Expand, Run, Moves;
    Conserved(s, acts);
    LogSize(s, acts);
    var b := Books(s, acts);
    assert |b.log + ExpandAll(Config(Run(s, acts))) + b.given| == |ExpandAll(Config(s))|;
  }

  // Which queues each unit has.
  predicate Houses(u: Where, p: Place)
  {
    match u
    case Top => p.Trail? || p.CNet?
    case W(_) => InWatcher(p)
    case C(_) => p.CTask? || p.CData? || p.COut? || p.CMem? || p.CResp? || p.CValue? || p.CProc? || p.CGen? || p.CWrite?
    case K(_) => p.KIn? || p.KOut?
  }

  ghost predicate Shaped(s: System)
  {
    forall u, p :: Exists(s, u) && p in QueuesOf(s, u) ==> Houses(u, p)
  }

  predicate HasUnits(s: System) { |s.ws| > 0 && |s.cs| > 0 && |s.ks| > 0 }

  // An action for an entry in queue p of unit u. A full queue is unblocked from
  // its own far end.
  function NextMove(s: System, u: Where, p: Place): Action
    requires Exists(s, u) && HasUnits(s)
  {
    match u
    case Top =>
      if p.CNet? then Carry(NetworkToClause(0), 0)
      else if |Get(s.ws[0].q, WTask)| < IN_SIZE then Carry(TrailToWatcher(0), 0)
      else WatcherStage(0, Watcher.InToRead)
    case W(i) =>
      (match p
       case WTask => WatcherStage(i, Watcher.InToRead)
       case WMeta => WatcherStage(i, Watcher.MetaToMem)
       case WOut => Carry(WatcherToMemory(i), 0)
       case WMem => Carry(MemoryToWatcher(i), 0)
       case WResp => WatcherStage(i, Watcher.RespToInside)
       case WRead => WatcherStage(i, Watcher.ReadToMem)
       case WValue => WatcherStage(i, Watcher.ValueToMem)
       case WProc => WatcherStage(i, Watcher.ProcessToOut)
       case WList => Carry(WatcherToListWriter(i), 0)
       case _ => Carry(WatcherToNetwork(i), 0))
    case C(i) =>
      (match p
       case CTask => if |Get(s.cs[i].q, CData)| < Clause.DATA_SIZE
                     then ClauseStage(i, Clause.TaskToData) else ClauseStage(i, Clause.DataToMem)
       case CData => ClauseStage(i, Clause.DataToMem)
       case COut => Carry(ClauseToMemory(i), 0)
       case CMem => Carry(MemoryToClause(i), 0)
       case CResp => if Clause.Idle(Clause.MemIn, s.cs[i])
                     then ClauseStage(i, Clause.ProcessToOut) else ClauseStage(i, Clause.MemIn)
       case CValue => ClauseStage(i, Clause.ValueToMem)
       case CProc => ClauseStage(i, Clause.ProcessToOut)
       case CGen => Carry(ClauseToTrail(i), 0)
       case _ => Carry(ClauseToWriter(i, 0), 0))
    case K(i) => if p.KIn? then WriterStage(i) else Carry(WriterToCache(i), 0)
  }

  lemma NextMoveEnabled(s: System, u: Where, p: Place)
    requires Exists(s, u) && HasUnits(s) && Houses(u, p) && Get(QueuesOf(s, u), p) != []
    ensures Enabled(s, NextMove(s, u, p))
  {
    match u
    case Top =>
    case W(i) => WatcherMoves(s, i, p);
    case C(i) => ClauseMoves(s, i, p);
    case K(i) =>
  }

  lemma WatcherMoves(s: System, i: nat, p: Place)
    requires Exists(s, W(i)) && HasUnits(s) && Houses(W(i), p) && Get(s.ws[i].q, p) != []
    ensures Enabled(s, NextMove(s, W(i), p))
  {
  }

  lemma ClauseMoves(s: System, i: nat, p: Place)
    requires Exists(s, C(i)) && HasUnits(s) && Houses(C(i), p) && Get(s.cs[i].q, p) != []
    ensures Enabled(s, NextMove(s, C(i), p))
  {
  }

  // A configuration with a token in it has a unit with an entry in a queue.
  lemma SomeEntry(s: System) returns (u: Where, p: Place)
    requires Config(s) != multiset{}
    ensures Exists(s, u) && p in QueuesOf(s, u) && QueuesOf(s, u)[p] != []
  {
    hide Held;
    var sh := Shelves(s);
    JoinEmpty(HeldEach(sh));
    var k :| 0 <= k < |sh| && Held(sh[k]) != multiset{};
    var nw, nc := |s.ws|, |s.cs|;
    u := if k == 0 then Top
         else if k < 1 + nw then W(k - 1)
         else if k < 1 + nw + nc then C(k - 1 - nw)
         else K(k - 1 - nw - nc);
    assert QueuesOf(s, u) == sh[k];
    if forall p :: p in sh[k] ==> sh[k][p] == [] { HeldOfEmpty(sh[k]); }
    p :| p in sh[k] && sh[k][p] != [];
  }

  // While anything is in flight some action moves, given networks and a memory
  // that accept what they are sent: the full trail queue of a watcher, and the
  // full queues of a clause unit, never lock.
  lemma Progress(s: System)
    requires Shaped(s) && HasUnits(s) && Config(s) != multiset{}
    ensures exists a :: Enabled(s, a)
  {
    hide Config, Enabled, NextMove;
    var u, p := SomeEntry(s);
    NextMoveEnabled(s, u, p);
  }

  lemma PutAllKeys(q: Queues, puts: seq<Put>, u: Where)
    requires forall p :: p in q ==> Houses(u, p)
    requires |puts| <= 3 && forall i :: 0 <= i < |puts| ==> Houses(u, puts[i].p)
    ensures forall p :: p in PutAll(q, puts) ==> Houses(u, p)
  {
  }

  lemma WatcherKeys(s: Watcher.Stage, v: Watcher.State)
    requires forall p :: p in v.q ==> Houses(W(0), p)
    ensures forall p :: p in Watcher.Step(s, v).q ==> Houses(W(0), p)
  {
    hide PutAll;
    if Get(v.q, Watcher.Source(s)) != [] {
      PutAllKeys(Pop(v.q, Watcher.Source(s)), Watcher.Puts(s, Get(v.q, Watcher.Source(s))[0]), W(0));
    }
  }

  lemma ClauseKeys(s: Clause.Stage, v: Clause.State)
    requires forall p :: p in v.q ==> Houses(C(0), p)
    ensures forall p :: p in Clause.Step(s, v).q ==> Houses(C(0), p)
  {
    hide PutAll;
    if !Clause.Idle(s, v) {
      PutAllKeys(Pop(v.q, Clause.Source(s)), Clause.Puts(s, v, Get(v.q, Clause.Source(s))[0]), C(0));
    }
  }

  lemma WriterKeys(q: Queues)
    requires forall p :: p in q ==> Houses(K(0), p)
    ensures forall p :: p in ClauseWriter.Step(q) ==> Houses(K(0), p)
  {
  }

  lemma StepShaped(s: System, a: Action)
    requires Shaped(s) && HasUnits(s)
    ensures Shaped(Apply(s, a)) && HasUnits(Apply(s, a))
  {
    hide Watcher.Step, Clause.Step, ClauseWriter.Step;
    if Enabled(s, a) {
      var u := Unit(a);
      assert forall p :: p in QueuesOf(s, u) ==> Houses(u, p);
      match a
      case WatcherStage(w, st) => WatcherKeys(st, s.ws[w]);
      case ClauseStage(c, st) => ClauseKeys(st, s.cs[c]);
      case WriterStage(k) => WriterKeys(s.ks[k]);
      case Carry(r, j) => CarryShaped(s, r, j);
    }
  }

  lemma CarryShaped(s: System, r: Route, j: nat)
    requires Shaped(s) && HasUnits(s) && Enabled(s, Carry(r, j))
    ensures Shaped(CarryStep(s, r, j)) && HasUnits(CarryStep(s, r, j))
  {
    var (u, p) := From(r);
    assert p in QueuesOf(s, u);
    var s0 := WithQueues(s, u, Drop(QueuesOf(s, u), p, j));
    WithQueuesShaped(s, u, Drop(QueuesOf(s, u), p, j));
    SameUnits(s, r, Drop(QueuesOf(s, u), p, j), u);
    CountedShaped(s0, r);
    if To(r).Some? {
      var (v, p') := To(r).value;
      SameUnits(s, r, Drop(QueuesOf(s, u), p, j), v);
      ReachesHouse(r);
      var s1 := Counted(s0, r);
      WithQueuesShaped(s1, v, Push(QueuesOf(s1, v), p', Get(QueuesOf(s, u), p)[j]));
    }
  }

  lemma ReachesHouse(r: Route)
    ensures To(r).Some? ==> Houses(To(r).value.0, To(r).value.1)
  {
  }

  lemma CountedShaped(s: System, r: Route)
    requires Exists(s, From(r).0) && Shaped(s) && HasUnits(s)
    ensures Shaped(Counted(s, r)) && HasUnits(Counted(s, r))
  {
  }

  lemma WithQueuesShaped(s: System, u: Where, q: Queues)
    requires Shaped(s) && Exists(s, u)
    requires forall p :: p in q ==> Houses(u, p)
    ensures Shaped(WithQueues(s, u, q))
  {
  }

  lemma StepShrinks(s: System, a: Action)
    requires Enabled(s, a) && AllWellFormed(Config(s))
    ensures AllWellFormed(Config(Apply(s, a)))
    ensures |ExpandAll(Config(Apply(s, a)))| < |ExpandAll(Config(s))|
  {
    hide Config, Expand, GivenUp, Apply, TakenToken, Enabled;
    NothingYet(s);
    StepBalanced(Book(multiset{}, multiset{}, 0), s, a, ExpandAll(Config(s)));
    assert |multiset{TakenToken(s, a)} + ExpandAll(Config(Apply(s, a))) + GivenUp(s, a)| == |ExpandAll(Config(s))|;
  }

  // From every state a run can meet, the system can be drained, given networks
  // and a memory that accept.
  lemma Drains(s: System) returns (acts: seq<Action>)
    requires Shaped(s) && HasUnits(s) && AllWellFormed(Config(s))
    ensures Config(Run(s, acts)) == multiset{}
  {
    hide Config, ExpandAll, Apply, Shaped, Enabled, AllWellFormed, HasUnits;
    acts := [];
    var s' := s;
    while Config(s') != multiset{}
      invariant s' == Run(s, acts)
      invariant Shaped(s') && HasUnits(s') && AllWellFormed(Config(s'))
      decreases |ExpandAll(Config(s'))|
    {
      Progress(s');
      var a :| Enabled(s', a);
      StepShrinks(s', a);
      StepShaped(s', a);
      assert (acts + [a])[..|acts|] == acts;
      acts, s' := acts + [a], Apply(s', a);
    }
  }

  lemma {:induction false} RunShaped(s: System, acts: seq<Action>)
    requires Shaped(s) && HasUnits(s)
    ensures Shaped(Run(s, acts)) && HasUnits(Run(s, acts))
    decreases |acts|
  {
    hide Shaped, HasUnits, Apply;
    if acts != [] {
      RunShaped(s, acts[..|acts| - 1]);
      StepShaped(Run(s, acts[..|acts| - 1]), acts[|acts| - 1]);
    }
  }

  // The tokens of a start are the requests on its trail, and nothing else.
  lemma StartConfig(trail: seq<Req>, nw: nat, nc: nat, nk: nat)
    ensures Config(Start(trail, nw, nc, nk)) == Bag(Trail, trail)
    ensures AllWellFormed(Bag(Trail, trail))
  {
    hide Held, Bag, Start;
    var each := HeldEach(Shelves(Start(trail, nw, nc, nk)));
    StartShelves(trail, nw, nc, nk);
    HeldPick(map[Trail := trail], Trail);
    assert map[Trail := trail] - {Trail} == map[];
    HeldNone();
    JoinEmpty(each[1..]);
    TrailWellFormed(trail);
  }

  lemma TrailSplit(trail: seq<Req>)
    requires trail != []
    ensures ExpandAll(Bag(Trail, trail))
         == Expand(At(Trail, trail[0].a, 0, 0)) + ExpandAll(Bag(Trail, trail[1..]))
  {
    hide Gather, Bag, Expand;
    var r, rest := trail[0], trail[1..];
    assert trail == [r] + rest;
    BagConcat(Trail, [r], rest);
    BagOne(Trail, r);
    GatherUnion(Expand, Bag(Trail, [r]), Bag(Trail, rest));
    GatherOne(Expand, Tok(Trail, r));
    assert multiset([Tok(Trail, r)]) == multiset{Tok(Trail, r)};
  }

  lemma StartShelves(trail: seq<Req>, nw: nat, nc: nat, nk: nat)
    ensures var each := HeldEach(Shelves(Start(trail, nw, nc, nk)));
            && |each| > 0 && each[0] == Held(map[Trail := trail])
            && forall i :: 0 <= i < |each[1..]| ==> each[1..][i] == multiset{}
  {
    hide Held;
    var sh := Shelves(Start(trail, nw, nc, nk));
    forall k | 1 <= k < |sh| ensures Held(sh[k]) == multiset{} {
      assert sh[k] in {Watcher.Fresh(), Clause.Fresh(), ClauseWriter.Fresh()};
      HeldOfEmpty(sh[k]);
    }
  }

  lemma StartShaped(trail: seq<Req>, nw: nat, nc: nat, nk: nat)
    ensures Shaped(Start(trail, nw, nc, nk))
  {
  }

  lemma TrailWellFormed(trail: seq<Req>)
    ensures AllWellFormed(Bag(Trail, trail))
  {
    forall t | t in Bag(Trail, trail) ensures WellFormed(t) {
      assert t in Toks(Trail, trail);
    }
  }

  // Whatever a run from a trail has done so far, it can be finished.
  lemma EveryRunCanFinish(trail: seq<Req>, nw: nat, nc: nat, nk: nat, acts: seq<Action>) returns (more: seq<Action>)
    requires nw > 0 && nc > 0 && nk > 0
    ensures Config(Run(Run(Start(trail, nw, nc, nk), acts), more)) == multiset{}
  {
    assert HasUnits(Start(trail, nw, nc, nk));
    hide Config, Run, Start, Shaped, HasUnits, Balanced;
    var s := Start(trail, nw, nc, nk);
    StartConfig(trail, nw, nc, nk);
    StartShaped(trail, nw, nc, nk);
    RunShaped(s, acts);
    Conserved(s, acts);
    assert AllWellFormed(Config(Run(s, acts))) by { BalancedParts(Books(s, acts), Run(s, acts), ExpandAll(Config(s))); }
    more := Drains(Run(s, acts));
  }

  lemma BalancedParts(b: Book, s: System, total: multiset<Token>)
    requires Balanced(b, s, total)
    ensures AllWellFormed(Config(s))
  {
  }
}
