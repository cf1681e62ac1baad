// src/acc.cc: the accelerator as a transition system. Every action takes one
// entry of one queue: a stage of a unit, or a transfer between queues. A cycle
// of acc::do_cycle is one fixed order of these actions; here any order may
// happen, and memory may answer its reads in any order.
module System {
  import opened Bags
  import opened Forest
  import opened Queues
  import opened Tokens
  import Watcher
  import Clause
  import ClauseWriter

  // `top` holds the trail and the network from watchers to clauses. The queues
  // of a unit include, at WMem or CMem, its reads that are inside the memory.
  datatype System = System(
    top: Queues, ws: seq<Watcher.State>, cs: seq<Clause.State>, ks: seq<Queues>)

  datatype Where = Top | W(i: nat) | C(i: nat) | K(i: nat)

  predicate Exists(s: System, u: Where)
  {
    match u
    case Top => true
    case W(i) => i < |s.ws|
    case C(i) => i < |s.cs|
    case K(i) => i < |s.ks|
  }

  function QueuesOf(s: System, u: Where): Queues
    requires Exists(s, u)
  {
    match u
    case Top => s.top
    case W(i) => s.ws[i].q
    case C(i) => s.cs[i].q
    case K(i) => s.ks[i]
  }

  function WithQueues(s: System, u: Where, q: Queues): System
    requires Exists(s, u)
  {
    match u
    case Top => s.(top := q)
    case W(i) => s.(ws := s.ws[i := s.ws[i].(q := q)])
    case C(i) => s.(cs := s.cs[i := s.cs[i].(q := q)])
    case K(i) => s.(ks := s.ks[i := q])
  }

  // The transfers of the clock passes.
  datatype Route =
    | TrailToWatcher(w: nat)
    | WatcherToMemory(w: nat) | MemoryToWatcher(w: nat)
    | WatcherToListWriter(w: nat)
    | WatcherToNetwork(w: nat) | NetworkToClause(c: nat)
    | ClauseToMemory(c: nat) | MemoryToClause(c: nat)
    | ClauseToTrail(c: nat)
    | ClauseToWriter(c: nat, k: nat) | WriterToCache(k: nat)

  function From(r: Route): (Where, Place)
  {
    match r
    case TrailToWatcher(_) => (Top, Trail)
    case WatcherToMemory(w) => (W(w), WOut)
    case MemoryToWatcher(w) => (W(w), WMem)
    case WatcherToListWriter(w) => (W(w), WList)
    case WatcherToNetwork(w) => (W(w), WSend)
    case NetworkToClause(_) => (Top, CNet)
    case ClauseToMemory(c) => (C(c), COut)
    case MemoryToClause(c) => (C(c), CMem)
    case ClauseToTrail(c) => (C(c), CGen)
    case ClauseToWriter(c, _) => (C(c), CWrite)
    case WriterToCache(k) => (K(k), KOut)
  }

  // List writes and clause writes leave the pipeline.
  function To(r: Route): Option<(Where, Place)>
  {
    match r
    case TrailToWatcher(w) => Some((W(w), WTask))
    case WatcherToMemory(w) => Some((W(w), WMem))
    case MemoryToWatcher(w) => Some((W(w), WResp))
    case WatcherToListWriter(_) => None
    case WatcherToNetwork(_) => Some((Top, CNet))
    case NetworkToClause(c) => Some((C(c), CTask))
    case ClauseToMemory(c) => Some((C(c), CMem))
    case MemoryToClause(c) => Some((C(c), CResp))
    case ClauseToTrail(_) => Some((Top, Trail))
    case ClauseToWriter(_, k) => Some((K(k), KIn))
    case WriterToCache(_) => None
  }

  // Memory and the network deliver any entry; the other queues their front.
  predicate AnyOrder(p: Place) { p.WMem? || p.CMem? || p.CNet? }

  datatype Action =
    | WatcherStage(w: nat, ws: Watcher.Stage)
    | ClauseStage(c: nat, cs: Clause.Stage)
    | WriterStage(k: nat)
    | Carry(r: Route, j: nat)

  // The unit, the queue and the entry that an action takes.
  function Unit(a: Action): Where
  {
    match a
    case WatcherStage(w, _) => W(w)
    case ClauseStage(c, _) => C(c)
    case WriterStage(k) => K(k)
    case Carry(r, _) => From(r).0
  }

  function Source(a: Action): Place
  {
    match a
    case WatcherStage(_, st) => Watcher.Source(st)
    case ClauseStage(_, st) => Clause.Source(st)
    case WriterStage(_) => KIn
    case Carry(r, _) => From(r).1
  }

  function Slot(a: Action): nat { if a.Carry? then a.j else 0 }

  const IN_SIZE: nat := 64

  predicate Ready(s: System, a: Action)
    requires Exists(s, Unit(a))
  {
    match a
    case WatcherStage(_, _) => true
    case ClauseStage(c, st) => !Clause.Idle(st, s.cs[c])
    case WriterStage(_) => true
    case Carry(r, j) =>
      && (AnyOrder(From(r).1) || j == 0)
      && (To(r).Some? ==> Exists(s, To(r).value.0))
      && (r.TrailToWatcher? ==> |Get(QueuesOf(s, W(r.w)), WTask)| < IN_SIZE)
  }

  predicate Enabled(s: System, a: Action)
  {
    && Exists(s, Unit(a))
    && Slot(a) < |Get(QueuesOf(s, Unit(a)), Source(a))|
    && Ready(s, a)
  }

  function Taken(s: System, a: Action): Req
    requires Enabled(s, a)
  {
    Get(QueuesOf(s, Unit(a)), Source(a))[Slot(a)]
  }

  function TakenToken(s: System, a: Action): Token
    requires Enabled(s, a)
  {
    Tok(Source(a), Taken(s, a))
  }

  // A clause counts its reads that are inside the memory.
  function Counted(s: System, r: Route): System
    requires Exists(s, From(r).0)
  {
    if r.ClauseToMemory? then s.(cs := s.cs[r.c := s.cs[r.c].(ongoing := s.cs[r.c].ongoing + 1)])
    else if r.MemoryToClause? then s.(cs := s.cs[r.c := s.cs[r.c].(ongoing := s.cs[r.c].ongoing - 1)])
    else s
  }

  function CarryStep(s: System, r: Route, j: nat): System
    requires Enabled(s, Carry(r, j))
  {
    var (u, p) := From(r);
    var s1 := Counted(WithQueues(s, u, Drop(QueuesOf(s, u), p, j)), r);
    match To(r)
    case None => s1
    case Some((v, p')) => WithQueues(s1, v, Push(QueuesOf(s1, v), p', Get(QueuesOf(s, u), p)[j]))
  }

  // An action that is not enabled leaves the system as it is.
  function Apply(s: System, a: Action): System
  {
    if !Enabled(s, a) then s
    else match a
      case WatcherStage(w, st) => s.(ws := s.ws[w := Watcher.Step(st, s.ws[w])])
      case ClauseStage(c, st) => s.(cs := s.cs[c := Clause.Step(st, s.cs[c])])
      case WriterStage(k) => s.(ks := s.ks[k := ClauseWriter.Step(s.ks[k])])
      case Carry(r, j) => CarryStep(s, r, j)
  }

  function Run(s: System, acts: seq<Action>): System
    decreases |acts|
  {
    if acts == [] then s else Apply(Run(s, acts[..|acts| - 1]), acts[|acts| - 1])
  }

  // A system at rest but for the requests on its trail.
  function Start(trail: seq<Req>, nw: nat, nc: nat, nk: nat): System
  {
    System(map[Trail := trail],
           seq(nw, _ => Watcher.State(Watcher.Fresh(), 0, 0, 0, false)),
           seq(nc, _ => Clause.State(Clause.Fresh(), 0, 0, 0)),
           seq(nk, _ => ClauseWriter.Fresh()))
  }

  // The queues of every unit, and all the tokens in them.
  ghost function Shelves(s: System): seq<Queues>
  {
    [s.top]
    + seq(|s.ws|, i requires 0 <= i < |s.ws| => s.ws[i].q)
    + seq(|s.cs|, i requires 0 <= i < |s.cs| => s.cs[i].q)
    + s.ks
  }

  ghost function Index(s: System, u: Where): nat
  {
    match u
    case Top => 0
    case W(i) => 1 + i
    case C(i) => 1 + |s.ws| + i
    case K(i) => 1 + |s.ws| + |s.cs| + i
  }

  ghost function HeldEach(sh: seq<Queues>): seq<multiset<Token>>
  {
    seq(|sh|, i requires 0 <= i < |sh| => Held(sh[i]))
  }

  ghost function Config(s: System): multiset<Token> { Join(HeldEach(Shelves(s))) }

  // Two systems that differ, in their queues, at most at unit u.
  ghost predicate SameBut(s: System, u: Where, s': System)
  {
    && Exists(s, u) && Exists(s', u)
    && Shelves(s') == Shelves(s)[Index(s, u) := QueuesOf(s', u)]
  }

  lemma ShelfAt(s: System, u: Where)
    requires Exists(s, u)
    ensures Index(s, u) < |Shelves(s)| && Shelves(s)[Index(s, u)] == QueuesOf(s, u)
  {
  }

  lemma ConfigUpdate(s: System, u: Where, s': System)
    requires SameBut(s, u, s')
    ensures Config(s') + Held(QueuesOf(s, u)) == Config(s) + Held(QueuesOf(s', u))
    ensures Held(QueuesOf(s, u)) <= Config(s)
  {
    hide Held, Join;
    ShelfAt(s, u);
    var k := Index(s, u);
    JoinUpdate(HeldEach(Shelves(s)), k, Held(QueuesOf(s', u)));
    assert HeldEach(Shelves(s')) == HeldEach(Shelves(s))[k := Held(QueuesOf(s', u))];
  }

  // What one unit does to its tokens, it does to the configuration.
  lemma UnitFires(s: System, u: Where, s': System, t: Token, made: seq<Token>)
    requires SameBut(s, u, s')
    requires Fires(Held(QueuesOf(s, u)), t, made, Held(QueuesOf(s', u)))
    ensures Fires(Config(s), t, made, Config(s'))
  {
    hide Held, Join, Config;
    ConfigUpdate(s, u, s');
    FiresAlong(Held(QueuesOf(s, u)), Held(QueuesOf(s', u)), Config(s), Config(s'), t, made);
  }

  lemma FiresAlong(b: multiset<Token>, b': multiset<Token>, all: multiset<Token>, all': multiset<Token>,
                   t: Token, made: seq<Token>)
    requires b <= all && all' + b == all + b' && Fires(b, t, made, b')
    ensures Fires(all, t, made, all')
  {
    var rest := all - b;
    assert all == rest + b;
    assert all' + b == (rest + b') + b;
    Cancel(all', rest + b', b);
  }
}
