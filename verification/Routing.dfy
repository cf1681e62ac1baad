// The routing of src/acc.cc: which node of the memory network, which private
// cache and which unit a request goes to. Every answer reaches the unit that
// asked, in every run, though tasks are dispatched to a clause index that is
// not the one written into the request.
module Routing {
  import opened Arithmetic
  import opened Bags
  import Cache
  import opened Tokens

  // nW watchers, each with a private cache and the writers, nC clause units and
  // nP cache partitions. Nodes 0..nW of the memory network belong to watchers,
  // the rest to partitions.
  datatype Machine = Machine(nW: nat, nC: nat, nP: nat)

  predicate Fits(m: Machine) { 1 <= m.nW <= m.nC && 1 <= m.nP }

  function Ratio(m: Machine): (r: nat)
    requires Fits(m)
    ensures r >= 1
  {
    m.nC / m.nW
  }

  // The watcher whose node and private cache clause unit c uses.
  function Group(m: Machine, c: nat): nat
    requires Fits(m)
  {
    c / Ratio(m)
  }

  // The clause units of watcher w: w's share when they are dealt out in a row.
  ghost predicate Serves(m: Machine, w: nat, c: nat)
    requires Fits(m)
  {
    w * Ratio(m) <= c < (w + 1) * Ratio(m)
  }

  datatype Unit = Watcher(i: nat) | Clause(c: nat) | ListWriter(i: nat)

  // A request, its address, and `issuer`, the unit that made it; the hooks see
  // only the rest. `id` tells equal requests apart.
  datatype Packet = Packet(
    id: int, req: Req, addr: nat, issuer: Unit,
    component: nat, from: nat, to: nat)

  // The cache partition of its address.
  function PartOf(m: Machine, addr: nat): (p: nat)
    requires Fits(m)
    ensures p < m.nP
  {
    Cache.Part(addr, m.nP)
  }

  // Places on the way. In and Out are the queues of a node of the network. A
  // write that has reached the cache is absorbed.
  datatype Spot =
    | In(n: nat) | Flight | Out(n: nat)
    | L3(p: nat) | Private(i: nat)
    | Returned(u: Unit) | Absorbed

  datatype Parcel = Parcel(at: Spot, x: Packet)

  // `next` is the round robin of the dispatch, `fed` the clause units that have
  // been sent a task.
  datatype State = State(parcels: multiset<Parcel>, next: nat, fed: set<nat>)

  function Start(): State { State(multiset{}, 0, {}) }

  datatype Action =
    | Dispatch(i: nat)
    | Issue(id: int, req: Req, addr: nat, issuer: Unit)
    | Move(x: Parcel)

  // Line 649: the unit that gets the task. Line 646 writes another number into
  // the request.
  function DispatchIndex(i: nat, next: nat): nat { i + next }

  function DispatchComponent(m: Machine, i: nat, next: nat): nat
    requires Fits(m)
  {
    i * Ratio(m) + next
  }

  function NextClause(m: Machine, next: nat): (n: nat)
    requires Fits(m)
    ensures n < Ratio(m)
  {
    (next + 1) % Ratio(m)
  }

  predicate IsWrite(k: AccessType) { k.WriteWatcherList? || k.WriteClause? }

  // Which unit issues which requests. A clause unit issues only for its tasks.
  predicate MayIssue(m: Machine, s: State, issuer: Unit, kind: AccessType)
  {
    match issuer
    case Watcher(i) => i < m.nW && (kind.ReadWatcherMetaData? || kind.ReadWatcherData? || kind.ReadWatcherValue?)
    case Clause(c) => c in s.fed && (kind.ReadClauseData? || kind.ReadClauseValue? || kind.WriteClause?)
    case ListWriter(i) => i < m.nW && kind.WriteWatcherList?
  }

  // The hooks that take requests out of the units.
  function Issued(m: Machine, id: int, req: Req, addr: nat, issuer: Unit): Parcel
    requires Fits(m)
  {
    var dest := m.nW + PartOf(m, addr);
    match issuer
    case Watcher(i) =>
      if req.kind.ReadWatcherValue? then Parcel(Private(i), Packet(id, req, addr, issuer, i, 0, 0))
      else Parcel(In(i), Packet(id, req, addr, issuer, i, i, dest))
    case Clause(c) =>
      if req.kind.ReadClauseValue? then Parcel(Private(Group(m, c)), Packet(id, req, addr, issuer, c + m.nW, 0, 0))
      else Parcel(In(Group(m, c)), Packet(id, req, addr, issuer, c + m.nW, Group(m, c), dest))
    case ListWriter(i) => Parcel(In(i), Packet(id, req, addr, issuer, i, i, dest))
  }

  predicate Arrived(at: Spot) { at.Returned? || at.Absorbed? }

  // The node of the network that an answer is sent to.
  function AnswerNode(m: Machine, component: nat): nat
    requires Fits(m)
  {
    if component < m.nW then component
    else Group(m, component - m.nW)
  }

  // Where the component number says the answer belongs.
  function Addressee(m: Machine, component: nat): Unit {
    if component < m.nW then Watcher(component) else Clause(component - m.nW)
  }

  // The hooks that move a request on.
  function Hop(m: Machine, y: Parcel): Parcel
    requires Fits(m)
  {
    var x := y.x;
    match y.at
    case In(_) => y.(at := Flight)
    case Flight => y.(at := Out(x.to))
    case Out(n) =>
      if n >= m.nW then y.(at := if IsWrite(x.req.kind) then Absorbed else L3(n - m.nW))
      else if x.component < m.nW then y.(at := Returned(Watcher(n)))
      else y.(at := Returned(Clause(x.component - m.nW)))
    case L3(p) => Parcel(In(m.nW + p), x.(from := m.nW + p, to := AnswerNode(m, x.component)))
    case Private(i) =>
      y.(at := Returned(if x.req.kind.ReadClauseValue? then Addressee(m, x.component) else Watcher(i)))
    case Returned(_) => y
    case Absorbed => y
  }

  predicate Enabled(m: Machine, s: State, a: Action)
  {
    match a
    case Dispatch(i) => i < m.nW
    case Issue(_, req, _, issuer) => MayIssue(m, s, issuer, req.kind)
    case Move(x) => x in s.parcels && !Arrived(x.at)
  }

  function Apply(m: Machine, s: State, a: Action): State
    requires Fits(m)
  {
    if !Enabled(m, s, a) then s
    else match a
      case Dispatch(i) =>
        var next := NextClause(m, s.next);
        s.(next := next, fed := s.fed + {DispatchIndex(i, next)})
      case Issue(id, req, addr, issuer) =>
        s.(parcels := s.parcels + multiset{Issued(m, id, req, addr, issuer)})
      case Move(x) => s.(parcels := s.parcels - multiset{x} + multiset{Hop(m, x)})
  }

  function Run(m: Machine, acts: seq<Action>): State
    requires Fits(m)
    decreases |acts|
  {
    if acts == [] then Start() else Apply(m, Run(m, acts[..|acts| - 1]), acts[|acts| - 1])
  }

  // The asserts and bounds of the hooks and networks, where request y is.
  ghost predicate Asserts(m: Machine, y: Parcel)
    requires Fits(m)
  {
    var x, nodes := y.x, m.nW + m.nP;
    match y.at
    case In(n) => n < nodes && x.to < nodes && x.from == n && x.from != x.to
    case Flight => x.to < nodes
    case Out(n) =>
      && n < nodes
      && (n >= m.nW ==> n - m.nW == PartOf(m, x.addr))
      && (n < m.nW && x.component < m.nW ==>
            x.component == n && (x.req.kind.ReadWatcherMetaData? || x.req.kind.ReadWatcherData?))
      && (n < m.nW <= x.component ==>
            && x.req.kind.ReadClauseData? && x.component < m.nW + m.nC
            && Serves(m, n, x.component - m.nW))
    case L3(p) => p < m.nP && p == PartOf(m, x.addr)
    case Private(i) =>
      && i < m.nW
      && (if x.req.kind.ReadClauseValue? then
            && m.nW <= x.component < m.nW + m.nC
            && Serves(m, i, x.component - m.nW)
          else x.req.kind.ReadWatcherValue? && x.component == i)
    case Returned(_) => true
    case Absorbed => true
  }

  // A unit that exists and whose group exists.
  predicate Real(m: Machine, u: Unit)
    requires Fits(m)
  {
    match u
    case Watcher(i) => i < m.nW
    case Clause(c) => c < m.nC && Group(m, c) < m.nW
    case ListWriter(i) => i < m.nW
  }

  // The number that stands for a unit in its requests, and its node.
  function Code(m: Machine, u: Unit): nat { if u.Clause? then u.c + m.nW else u.i }

  function Node(m: Machine, u: Unit): nat
    requires Fits(m)
  {
    if u.Clause? then Group(m, u.c) else u.i
  }

  // The kind fits the issuer.
  predicate Suits(u: Unit, k: AccessType)
  {
    match u
    case Watcher(_) => k.ReadWatcherMetaData? || k.ReadWatcherData? || k.ReadWatcherValue?
    case Clause(_) => k.ReadClauseData? || k.ReadClauseValue? || k.WriteClause?
    case ListWriter(_) => k.WriteWatcherList?
  }

  predicate Cached(k: AccessType) { k.ReadWatcherValue? || k.ReadClauseValue? }

  // Where a request can be, given who issued it.
  predicate OnRoute(m: Machine, y: Parcel)
    requires Fits(m)
  {
    var x := y.x;
    && Real(m, x.issuer) && Suits(x.issuer, x.req.kind)
    && x.component == Code(m, x.issuer)
    && match y.at
       case In(n) => !Cached(x.req.kind) && Leg(m, y) && n == x.from
       case Flight => !Cached(x.req.kind) && Leg(m, y)
       case Out(n) => !Cached(x.req.kind) && Leg(m, y) && n == x.to
       case L3(p) => !Cached(x.req.kind) && !IsWrite(x.req.kind) && p == PartOf(m, x.addr)
       case Private(i) => Cached(x.req.kind) && i == Node(m, x.issuer)
       case Returned(u) => !IsWrite(x.req.kind) && u == x.issuer
       case Absorbed => IsWrite(x.req.kind)
  }

  // There, or back.
  predicate Leg(m: Machine, y: Parcel)
    requires Fits(m)
  {
    || (y.x.from == Node(m, y.x.issuer) && y.x.to == m.nW + PartOf(m, y.x.addr))
    || (y.x.from == m.nW + PartOf(m, y.x.addr) && y.x.to == Node(m, y.x.issuer) && !IsWrite(y.x.req.kind))
  }

  // The dispatched clause unit exists, and so does its group, even when the
  // clause units are not a multiple of the watchers.
  lemma DispatchInRange(m: Machine, i: nat, next: nat)
    requires Fits(m) && i < m.nW && next < Ratio(m)
    ensures DispatchIndex(i, next) < m.nC && Group(m, DispatchIndex(i, next)) < m.nW
  {
    var r := Ratio(m);
    assert r * m.nW <= m.nC;
    MulGap(m.nW, r);
    assert i + next <= m.nW + r - 2;
    assert i + next < m.nW * r;
    DivBelow(i + next, r, m.nW);
  }

  // The ratio is what goes into each share.
  lemma RatioIs(m: Machine)
    requires Fits(m)
    ensures Ratio(m) * m.nW <= m.nC < (Ratio(m) + 1) * m.nW
  {
    DivParts(m.nC, m.nW);
    NextMultiple(Ratio(m), m.nW);
  }

  // The group of a unit is the watcher in whose share it is.
  lemma GroupIs(m: Machine, c: nat, w: nat)
    requires Fits(m)
    ensures Group(m, c) == w <==> Serves(m, w, c)
  {
    var r := Ratio(m);
    DivParts(c, r);
    NextMultiple(w, r);
    NextMultiple(c / r, r);
    if Serves(m, w, c) { QuotientIs(c, r, w, c - w * r); }
  }

  // Each watcher has as many units as the ratio says. Every unit has a watcher
  // exactly if the clause units are a multiple of the watchers.
  lemma EachWatcherServes(m: Machine, w: nat)
    requires Fits(m) && w < m.nW
    ensures var mine := set c: nat | c < m.nC && Group(m, c) == w;
            |mine| == Ratio(m) && forall c: nat :: c in mine <==> Serves(m, w, c)
  {
    hide Group, Ratio, Serves;
    var r := Ratio(m);
    var mine := set c: nat | c < m.nC && Group(m, c) == w;
    forall c: nat ensures c in mine <==> Serves(m, w, c) {
      GroupIs(m, c, w);
      if Serves(m, w, c) { ServedExists(m, w, c); }
    }
    forall c: nat ensures c in Range(w * r, r) <==> Serves(m, w, c) {
      ServedRange(m, w, c);
    }
    assert mine == Range(w * r, r);
  }

  lemma ServedExists(m: Machine, w: nat, c: nat)
    requires Fits(m) && w < m.nW && Serves(m, w, c)
    ensures c < m.nC
  {
    hide Ratio;
    RatioIs(m);
    MulMono(w + 1, m.nW, Ratio(m));
    Exchange2(Ratio(m), m.nW);
  }

  lemma ServedRange(m: Machine, w: nat, c: nat)
    requires Fits(m)
    ensures Serves(m, w, c) <==> w * Ratio(m) <= c < w * Ratio(m) + Ratio(m)
  {
    hide Ratio;
    NextMultiple(w, Ratio(m));
  }

  lemma Exchange2(a: nat, b: nat)
    ensures a * b == b * a
  {
  }

  // n numbers from lo on.
  ghost function Range(lo: nat, n: nat): (r: set<nat>)
    ensures |r| == n && forall c: nat :: c in r <==> lo <= c < lo + n
  {
    if n == 0 then {} else Range(lo, n - 1) + {lo + n - 1}
  }

  lemma AllServedIff(m: Machine)
    requires Fits(m)
    ensures (forall c: nat :: c < m.nC ==> Group(m, c) < m.nW) <==> m.nC % m.nW == 0
  {
    var r := Ratio(m);
    DivParts(m.nC, m.nW);
    Exchange2(r, m.nW);
    if m.nC % m.nW == 0 {
      forall c: nat | c < m.nC ensures Group(m, c) < m.nW {
        DivBelow(c, r, m.nW);
      }
    } else {
      var c := m.nC - 1;
      GroupIs(m, c, Group(m, c));
      assert c >= m.nW * r;
      NextMultiple(Group(m, c), r);
      if Group(m, c) < m.nW { MulMono(Group(m, c) + 1, m.nW, r); }
    }
  }

  // The number written into a dispatched task names the unit that gets it
  // exactly for the first watcher, or with one clause unit a watcher.
  lemma ComponentIff(m: Machine, i: nat, next: nat)
    requires Fits(m)
    ensures DispatchComponent(m, i, next) == DispatchIndex(i, next) <==> i == 0 || Ratio(m) == 1
  {
    var r := Ratio(m);
    if i > 0 && r > 1 { assert i * r >= i * 2; }
  }

  // It is a number of the watcher's own share all the same.
  lemma ComponentInShare(m: Machine, i: nat, next: nat)
    requires Fits(m) && next < Ratio(m)
    ensures Serves(m, i, DispatchComponent(m, i, next)) && DispatchComponent(m, i, next) % Ratio(m) == next
  {
    NextMultiple(i, Ratio(m));
    QuotientIs(i * Ratio(m) + next, Ratio(m), i, next);
  }

  ghost predicate Inv(m: Machine, s: State)
    requires Fits(m)
  {
    && s.next < Ratio(m)
    && (forall c :: c in s.fed ==> c < m.nC && Group(m, c) < m.nW)
    && (forall y :: y in s.parcels ==> OnRoute(m, y))
  }

  lemma IssuedOnRoute(m: Machine, s: State, a: Action)
    requires Fits(m) && Inv(m, s) && a.Issue? && Enabled(m, s, a)
    ensures OnRoute(m, Issued(m, a.id, a.req, a.addr, a.issuer))
  {
    hide Group;
  }

  lemma HopOnRoute(m: Machine, y: Parcel)
    requires Fits(m) && OnRoute(m, y)
    ensures OnRoute(m, Hop(m, y)) && Asserts(m, y)
    ensures AtItsNode(m, y)
  {
    hide Group, Serves;
    if y.x.issuer.Clause? {
      var c := y.x.issuer.c;
      GroupIs(m, c, Group(m, c));
    }
  }

  // A request of clause unit c, and its answer, pass the node and the private
  // cache of the watcher that has c in its share.
  ghost predicate AtItsNode(m: Machine, y: Parcel)
    requires Fits(m)
  {
    y.x.issuer.Clause? ==>
      match y.at
      case In(n) => n < m.nW ==> Serves(m, n, y.x.issuer.c)
      case Out(n) => n < m.nW ==> Serves(m, n, y.x.issuer.c)
      case Private(i) => Serves(m, i, y.x.issuer.c)
      case _ => true
  }

  lemma StepOnRoute(m: Machine, s: State, a: Action)
    requires Fits(m) && Inv(m, s)
    ensures Inv(m, Apply(m, s, a))
  {
    hide Group, Hop, Issued, OnRoute, Asserts;
    if Enabled(m, s, a) {
      match a
      case Dispatch(i) => DispatchInRange(m, i, NextClause(m, s.next));
      case Issue(_, _, _, _) => IssuedOnRoute(m, s, a);
      case Move(x) => HopOnRoute(m, x);
    }
  }

  lemma {:induction false} RunOnRoute(m: Machine, acts: seq<Action>)
    requires Fits(m)
    ensures Inv(m, Run(m, acts))
    decreases |acts|
  {
    hide Apply;
    if acts != [] {
      RunOnRoute(m, acts[..|acts| - 1]);
      StepOnRoute(m, Run(m, acts[..|acts| - 1]), acts[|acts| - 1]);
    }
  }

  // In every run every assert and bound on the way of a request holds, no
  // packet enters the network for the node it leaves, and what has been
  // returned is at the unit that issued it.
  lemma RoutedHome(m: Machine, acts: seq<Action>, y: Parcel)
    requires Fits(m) && y in Run(m, acts).parcels
    ensures Asserts(m, y) && AtItsNode(m, y)
    ensures y.at.Returned? ==> y.at.u == y.x.issuer
    ensures y.at.Returned? ==> !y.x.req.kind.WriteWatcherList? && !y.x.req.kind.WriteClause?
  {
    hide Group, Run;
    RunOnRoute(m, acts);
    HopOnRoute(m, y);
  }

  // An answer carries the number of its unit. A list write is a copy of the last
  // value answer of its list, so it meets the assert that it carries its watcher.
  lemma ReturnedCarriesUnit(m: Machine, acts: seq<Action>, y: Parcel)
    requires Fits(m) && y in Run(m, acts).parcels && y.at.Returned?
    ensures y.x.component == Code(m, y.at.u)
  {
    hide Group, Run;
    RunOnRoute(m, acts);
  }

  // What identifies a request, whatever the hooks write into it.
  datatype Tag = Tag(id: int, req: Req, addr: nat, issuer: Unit)

  function TagOf(y: Parcel): Tag { Tag(y.x.id, y.x.req, y.x.addr, y.x.issuer) }

  ghost function OneTag(y: Parcel): multiset<Tag> { multiset{TagOf(y)} }

  ghost function IssuedTags(m: Machine, acts: seq<Action>): multiset<Tag>
    requires Fits(m)
    decreases |acts|
  {
    if acts == [] then multiset{}
    else
      var before, a := acts[..|acts| - 1], acts[|acts| - 1];
      IssuedTags(m, before)
      + if a.Issue? && Enabled(m, Run(m, before), a) then multiset{Tag(a.id, a.req, a.addr, a.issuer)}
        else multiset{}
  }

  // Every request issued is at one place on its way: none is lost or doubled.
  lemma {:induction false} EachOnce(m: Machine, acts: seq<Action>)
    requires Fits(m)
    ensures Gather(OneTag, Run(m, acts).parcels) == IssuedTags(m, acts)
    decreases |acts|
  {
    hide Gather, Hop, Issued;
    if acts == [] {
      GatherNone(OneTag);
    } else {
      var before, a := acts[..|acts| - 1], acts[|acts| - 1];
      var ps := Run(m, before).parcels;
      EachOnce(m, before);
      if Enabled(m, Run(m, before), a) {
        match a
        case Dispatch(_) =>
        case Issue(id, req, addr, issuer) =>
          GatherAdd(OneTag, ps, Issued(m, id, req, addr, issuer));
          IssuedTag(m, id, req, addr, issuer);
        case Move(x) =>
          GatherPick(OneTag, ps, x);
          GatherAdd(OneTag, ps - multiset{x}, Hop(m, x));
          HopTag(m, x);
      }
    }
  }

  lemma IssuedTag(m: Machine, id: int, req: Req, addr: nat, issuer: Unit)
    requires Fits(m)
    ensures OneTag(Issued(m, id, req, addr, issuer)) == multiset{Tag(id, req, addr, issuer)}
  {
  }

  lemma HopTag(m: Machine, y: Parcel)
    requires Fits(m)
    ensures OneTag(Hop(m, y)) == OneTag(y)
  {
  }

  // How many hops are left.
  function HopsLeft(m: Machine, y: Parcel): nat
  {
    var back := if y.x.to < m.nW then 0 else 4;
    match y.at
    case In(_) => back + 3
    case Flight => back + 2
    case Out(_) => back + 1
    case L3(_) => 4
    case Private(_) => 1
    case Returned(_) => 0
    case Absorbed => 0
  }

  // Each hop brings a request nearer to its end, so at most seven do.
  lemma HopsFall(m: Machine, y: Parcel)
    requires Fits(m) && OnRoute(m, y) && !Arrived(y.at)
    ensures HopsLeft(m, Hop(m, y)) == HopsLeft(m, y) - 1 || Hop(m, y).at.Absorbed?
    ensures HopsLeft(m, Hop(m, y)) < HopsLeft(m, y) <= 7
  {
    hide Group;
    HopOnRoute(m, y);
  }
}
