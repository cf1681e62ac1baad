// The pipeline, the routing and the cache together. The reads that a unit has
// outstanding are the requests of that unit on their way, and those of them that
// are at a partition of the cache are what the cache has accepted and not yet
// given back. So when the networks, the private caches, the cache and the DRAM
// are empty, no read is outstanding: empty() need not look for them.
module Whole {
  import opened Bags
  import opened Forest
  import opened Queues
  import opened Tokens
  import AddressMap
  import C = Cache
  import Conservation
  import Counters
  import Cycles
  import R = Routing
  import S = System
  import Schedules
  import T = MissTable

  datatype State = State(s: S.System, r: R.State, c: C.State, h: T.History)

  // A stage or a transfer that has nothing to do with the memory; a task that
  // comes out of its network at a watcher; a read that leaves its unit; a clause
  // that leaves its writer, for unit c; a list write; a hop of a network; a
  // request that enters the cache; the cache, by itself; an answer that leaves
  // it; and one that comes home.
  datatype Step =
    | Inner(a: S.Action)
    | Dispatch(i: nat, j: nat)
    | Send(u: R.Unit, id: int, addr: nat)
    | WriteBack(c: nat, k: nat, id: int, addr: nat)
    | SendWrite(i: nat, id: int, req: Req, addr: nat)
    | Hop(y: R.Parcel)
    | Enter(y: R.Parcel)
    | InCache(e: C.Action)
    | Answer(y: R.Parcel)
    | Home(y: R.Parcel, j: nat)

  // The units that read, and where the system has them.
  predicate Reader(m: R.Machine, u: R.Unit) { (u.Watcher? && u.i < m.nW) || (u.Clause? && u.c < m.nC) }

  function WhereOf(u: R.Unit): S.Where
    requires !u.ListWriter?
  {
    if u.Watcher? then S.W(u.i) else S.C(u.c)
  }

  function OutPlace(u: R.Unit): Place { if u.Watcher? then WOut else COut }
  function MemPlace(u: R.Unit): Place { if u.Watcher? then WMem else CMem }

  function Leaving(u: R.Unit): S.Route
    requires !u.ListWriter?
  {
    if u.Watcher? then S.WatcherToMemory(u.i) else S.ClauseToMemory(u.c)
  }

  function Coming(u: R.Unit): S.Route
    requires !u.ListWriter?
  {
    if u.Watcher? then S.MemoryToWatcher(u.i) else S.MemoryToClause(u.c)
  }

  // The reads of a unit that are outstanding.
  function Reads(s: S.System, u: R.Unit): seq<Req>
    requires !u.ListWriter? && S.Exists(s, WhereOf(u))
  {
    Get(S.QueuesOf(s, WhereOf(u)), MemPlace(u))
  }

  predicate Fits(m: R.Machine, w: State)
  {
    && R.Fits(m) && |w.s.ws| == m.nW && |w.s.cs| == m.nC
    && |w.c.ins| == |w.c.delays| == |w.c.outs| == |w.c.reserved| == m.nP
    && |w.h.accepted| == |w.h.taken| == m.nP
  }

  // A request as the cache sees it.
  function AccessOf(y: R.Parcel): C.Access { C.Access(R.IsWrite(y.x.req.kind), y.x.addr, y.x.id) }

  // The partitions are 2^k, as the address maps have it.
  predicate Partitioned(m: R.Machine, k: nat) { k <= 26 && m.nP == AddressMap.Pow2(k) }

  predicate AtMemory(a: S.Action)
  {
    a.Carry? && (a.r.WatcherToMemory? || a.r.MemoryToWatcher? || a.r.ClauseToMemory? || a.r.MemoryToClause?
                 || a.r.NetworkToClause? || a.r.WriterToCache?)
  }

  // A finished clause goes to the writer of its share of the clause units.
  ghost predicate ToOwnWriter(m: R.Machine, a: S.Action)
    requires R.Fits(m)
  {
    a.Carry? && a.r.ClauseToWriter? ==> R.Serves(m, a.r.k, a.r.c)
  }

  ghost predicate Possible(m: R.Machine, w: State, t: Step)
    requires Fits(m, w)
  {
    match t
    case Inner(a) => !AtMemory(a) && ToOwnWriter(m, a)
    case Dispatch(i, j) => i < m.nW && j < |Get(w.s.top, CNet)|
    case Send(u, _, _) => Reader(m, u) && Get(S.QueuesOf(w.s, WhereOf(u)), OutPlace(u)) != []
    case WriteBack(c, k, _, _) =>
      k < |w.s.ks| && c in w.r.fed && R.Serves(m, k, c) && Get(w.s.ks[k], KOut) != []
    case SendWrite(i, _, req, _) => R.MayIssue(m, w.r, R.ListWriter(i), req.kind)
    case Hop(y) => y in w.r.parcels && (y.at.In? || y.at.Flight?)
    case Enter(y) => y in w.r.parcels && y.at.Out? && m.nW <= y.at.n < m.nW + m.nP
    case InCache(e) => C.Enabled(w.c, e) && C.Legal(w.c, e) && !e.Arrive? && !e.Take?
    case Answer(y) =>
      && y in w.r.parcels && y.at.L3? && y.at.p < m.nP
      && w.c.outs[y.at.p] != [] && w.c.outs[y.at.p][0] == AccessOf(y)
    case Home(y, j) =>
      && y in w.r.parcels && (y.at.Private? || (y.at.Out? && y.at.n < m.nW))
      && R.Hop(m, y).at.Returned?
      && var u := R.Hop(m, y).at.u; Reader(m, u) && j < |Reads(w.s, u)| && Reads(w.s, u)[j] == y.x.req
  }

  // The clause unit that gets the next task that comes out at watcher i.
  function Dispatched(m: R.Machine, w: State, i: nat): nat
    requires R.Fits(m)
  {
    R.DispatchIndex(i, R.NextClause(m, w.r.next))
  }

  ghost function CacheStep(w: State, a: C.Action): State
    requires C.Shape(w.c) && |w.h.accepted| == |w.h.taken| == |w.c.ins|
  {
    w.(c := C.Apply(w.c, a), h := T.Note(w.c, w.h, a))
  }

  ghost function Next(m: R.Machine, w: State, t: Step): State
    requires Fits(m, w)
  {
    if !Possible(m, w, t) then w
    else match t
      case Inner(a) => w.(s := S.Apply(w.s, a))
      case Dispatch(i, j) =>
        w.(r := R.Apply(m, w.r, R.Dispatch(i)), s := S.Apply(w.s, S.Carry(S.NetworkToClause(Dispatched(m, w, i)), j)))
      case Send(u, id, addr) =>
        var req := Get(S.QueuesOf(w.s, WhereOf(u)), OutPlace(u))[0];
        w.(r := R.Apply(m, w.r, R.Issue(id, req, addr, u)), s := S.Apply(w.s, S.Carry(Leaving(u), 0)))
      case WriteBack(c, k, id, addr) =>
        w.(r := R.Apply(m, w.r, R.Issue(id, Get(w.s.ks[k], KOut)[0], addr, R.Clause(c))),
           s := S.Apply(w.s, S.Carry(S.WriterToCache(k), 0)))
      case SendWrite(i, id, req, addr) => w.(r := R.Apply(m, w.r, R.Issue(id, req, addr, R.ListWriter(i))))
      case Hop(y) => w.(r := R.Apply(m, w.r, R.Move(y)))
      case Enter(y) => CacheStep(w.(r := R.Apply(m, w.r, R.Move(y))), C.Arrive(y.at.n - m.nW, AccessOf(y)))
      case InCache(e) => CacheStep(w, e)
      case Answer(y) => CacheStep(w.(r := R.Apply(m, w.r, R.Move(y))), C.Take(y.at.p))
      case Home(y, j) =>
        w.(r := R.Apply(m, w.r, R.Move(y)), s := S.Apply(w.s, S.Carry(Coming(R.Hop(m, y).at.u), j)))
  }
}
