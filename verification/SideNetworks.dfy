// The other two networks of src/acc.cc: tasks go from the watchers to the clause
// units, list writes to the list writers. A packet for its own node bypasses
// the network.
module SideNetworks {
  import opened Forest

  // How a task is addressed: by its clause, or straight to the units of its own
  // watcher.
  datatype Mode = Icnt | Straight

  // `src` is the watcher that sends. A write that is pushed to another list goes
  // to the writer of that list. The list is a signed 32-bit number, taken as an
  // unsigned one.
  datatype Cargo = Task(src: nat, clauseId: nat) | ListWrite(src: nat, pushed: Option<int>)

  const UNSIGNED: nat := 0x1_0000_0000

  datatype Spot = In(n: nat) | Flight | Out(n: nat) | Arrived(n: nat)

  datatype Parcel = Parcel(at: Spot, x: Cargo, from: nat, to: nat)

  datatype Action = Send(x: Cargo) | Move(y: Parcel)

  function Target(mode: Mode, nW: nat, x: Cargo): nat
    requires nW > 0
  {
    match x
    case Task(src, clauseId) => if mode.Icnt? then clauseId % nW else src
    case ListWrite(src, pushed) => if pushed.Some? then pushed.value % UNSIGNED % nW else src
  }

  // The hooks that take cargo out of a watcher. A write to the local list is
  // handed over without the network.
  function Sent(mode: Mode, nW: nat, x: Cargo): Parcel
    requires nW > 0
  {
    var to := Target(mode, nW, x);
    if x.ListWrite? && x.pushed.None? then Parcel(Arrived(x.src), x, x.src, x.src)
    else if to == x.src then Parcel(Out(x.src), x, x.src, to)
    else Parcel(In(x.src), x, x.src, to)
  }

  function Hop(y: Parcel): Parcel
  {
    match y.at
    case In(_) => y.(at := Flight)
    case Flight => y.(at := Out(y.to))
    case Out(n) => y.(at := Arrived(n))
    case Arrived(_) => y
  }

  predicate Enabled(nW: nat, ps: multiset<Parcel>, a: Action)
  {
    match a
    case Send(x) => x.src < nW
    case Move(y) => y in ps && !y.at.Arrived?
  }

  function Apply(mode: Mode, nW: nat, ps: multiset<Parcel>, a: Action): multiset<Parcel>
    requires nW > 0
  {
    if !Enabled(nW, ps, a) then ps
    else match a
      case Send(x) => ps + multiset{Sent(mode, nW, x)}
      case Move(y) => ps - multiset{y} + multiset{Hop(y)}
  }

  function Run(mode: Mode, nW: nat, acts: seq<Action>): multiset<Parcel>
    requires nW > 0
    decreases |acts|
  {
    if acts == [] then multiset{} else Apply(mode, nW, Run(mode, nW, acts[..|acts| - 1]), acts[|acts| - 1])
  }

  predicate OnWay(mode: Mode, nW: nat, y: Parcel)
    requires nW > 0
  {
    && y.x.src < nW && y.from == y.x.src && y.to == Target(mode, nW, y.x) < nW
    && match y.at
       case In(n) => n == y.from && y.from != y.to
       case Flight => y.from != y.to
       case Out(n) => n == y.to
       case Arrived(n) => n == y.to
  }

  lemma SentOnWay(mode: Mode, nW: nat, x: Cargo)
    requires nW > 0 && x.src < nW
    ensures OnWay(mode, nW, Sent(mode, nW, x))
  {
  }

  lemma {:induction false} RunOnWay(mode: Mode, nW: nat, acts: seq<Action>)
    requires nW > 0
    ensures forall y :: y in Run(mode, nW, acts) ==> OnWay(mode, nW, y)
    decreases |acts|
  {
    hide Sent;
    if acts != [] {
      var before, a := acts[..|acts| - 1], acts[|acts| - 1];
      RunOnWay(mode, nW, before);
      if a.Send? && a.x.src < nW { SentOnWay(mode, nW, a.x); }
    }
  }

  // In every run a packet in a network queue is at the node it leaves, and goes
  // to another one that exists; and cargo arrives where it is addressed.
  lemma EachArrives(mode: Mode, nW: nat, acts: seq<Action>, y: Parcel)
    requires nW > 0 && y in Run(mode, nW, acts)
    ensures y.at.In? ==> y.at.n == y.from != y.to < nW
    ensures y.at.Out? || y.at.Arrived? ==> y.at.n == Target(mode, nW, y.x) < nW
  {
    RunOnWay(mode, nW, acts);
  }

  // Each hop brings cargo nearer, so at most three do.
  function HopsLeft(at: Spot): nat
  {
    match at
    case In(_) => 3
    case Flight => 2
    case Out(_) => 1
    case Arrived(_) => 0
  }

  lemma HopsFall(y: Parcel)
    ensures y.at.Arrived? || HopsLeft(Hop(y).at) < HopsLeft(y.at)
    ensures HopsLeft(y.at) <= 3 && (HopsLeft(y.at) == 0 <==> y.at.Arrived?) && Hop(y).x == y.x
  {
  }

  // Where a task comes out, its clause is one of that watcher's, as line 647
  // asserts, exactly if tasks are addressed by clause or the clause was one of
  // the sender's.
  lemma TaskAssertIff(mode: Mode, nW: nat, acts: seq<Action>, y: Parcel)
    requires nW > 0 && y in Run(mode, nW, acts) && y.x.Task? && y.at.Out?
    ensures y.x.clauseId % nW == y.at.n <==> mode.Icnt? || y.x.clauseId % nW == y.x.src
  {
    RunOnWay(mode, nW, acts);
  }
}
