// src/ramulator_wrapper.cc: the memory behind the cache. What the memory does
// with a request it has accepted is not visible; it calls back each accepted
// request at most once, at any time and in any order.
module Memory {
  import opened Bags

  datatype Fetch = Fetch(read: bool, addr: nat)

  // `inside` are the requests accepted and not yet called back. `failed`
  // records that the assert of call_back did not hold.
  datatype State = State(inQ: seq<Fetch>, inside: seq<Fetch>, outQ: seq<nat>, outgoing: int, failed: bool)

  function Fresh(): State { State([], [], [], 0, false) }

  function Send(m: State, f: Fetch): State { m.(inQ := m.inQ + [f]) }

  function Accept(m: State): State {
    if m.inQ == [] then m
    else m.(inQ := m.inQ[1..], inside := m.inside + [m.inQ[0]], outgoing := m.outgoing + 1)
  }

  function CallBack(m: State, j: nat): State {
    if j >= |m.inside| then m
    else m.(inside := m.inside[..j] + m.inside[j + 1..],
            outQ := if m.inside[j].read then m.outQ + [m.inside[j].addr] else m.outQ,
            outgoing := m.outgoing - 1,
            failed := m.failed || m.outgoing - 1 < 0)
  }

  function CallBacks(m: State, finished: seq<nat>): State
    decreases |finished|
  {
    if finished == [] then m else CallBacks(CallBack(m, finished[0]), finished[1..])
  }

  // One cycle, in which the memory accepts the front request or not, and then
  // calls back the given requests.
  function Cycle(m: State, accepts: bool, finished: seq<nat>): State {
    CallBacks(if accepts then Accept(m) else m, finished)
  }

  function Pop(m: State): State
    requires m.outQ != []
  {
    m.(outQ := m.outQ[1..])
  }

  predicate Empty(m: State) { m.inQ == [] && m.outQ == [] && m.outgoing == 0 }

  ghost function ReadAddr(f: Fetch): multiset<nat> { if f.read then multiset{f.addr} else multiset{} }

  ghost function ReadsOf(q: seq<Fetch>): multiset<nat> { Gather(ReadAddr, multiset(q)) }

  ghost function WriteAddr(f: Fetch): multiset<nat> { if f.read then multiset{} else multiset{f.addr} }

  ghost function WritesOf(q: seq<Fetch>): multiset<nat> { Gather(WriteAddr, multiset(q)) }

  // The writes that are somewhere in the memory.
  ghost function Writes(m: State): multiset<nat> { WritesOf(m.inQ) + WritesOf(m.inside) }

  // The reads that are somewhere in the memory.
  ghost function Reads(m: State): multiset<nat> {
    ReadsOf(m.inQ) + ReadsOf(m.inside) + multiset(m.outQ)
  }

  predicate Sound(m: State) { m.outgoing == |m.inside| && !m.failed }

  lemma ReadsOfAdd(q: seq<Fetch>, f: Fetch)
    ensures ReadsOf(q + [f]) == ReadsOf(q) + ReadAddr(f)
  {
    GatherAdd(ReadAddr, multiset(q), f);
    assert multiset(q + [f]) == multiset(q) + multiset{f};
  }

  lemma ReadsOfDrop(q: seq<Fetch>, j: nat)
    requires j < |q|
    ensures ReadsOf(q) == ReadsOf(q[..j] + q[j + 1..]) + ReadAddr(q[j])
  {
    var rest := q[..j] + q[j + 1..];
    ReadsOfAdd(rest, q[j]);
    assert q == q[..j] + [q[j]] + q[j + 1..];
    assert multiset(rest + [q[j]]) == multiset(q);
  }

  lemma ReadsOfTail(q: seq<Fetch>)
    requires q != []
    ensures ReadsOf(q) == ReadsOf(q[1..]) + ReadAddr(q[0])
  {
    ReadsOfDrop(q, 0);
    assert q[..0] + q[1..] == q[1..];
  }

  lemma ReadsOfNone()
    ensures ReadsOf([]) == multiset{}
  {
    GatherNone(ReadAddr);
  }

  lemma WritesOfAdd(q: seq<Fetch>, f: Fetch)
    ensures WritesOf(q + [f]) == WritesOf(q) + WriteAddr(f)
  {
    GatherAdd(WriteAddr, multiset(q), f);
    assert multiset(q + [f]) == multiset(q) + multiset{f};
  }

  lemma WritesOfDrop(q: seq<Fetch>, j: nat)
    requires j < |q|
    ensures WritesOf(q) == WritesOf(q[..j] + q[j + 1..]) + WriteAddr(q[j])
  {
    var rest := q[..j] + q[j + 1..];
    WritesOfAdd(rest, q[j]);
    assert q == q[..j] + [q[j]] + q[j + 1..];
    assert multiset(rest + [q[j]]) == multiset(q);
  }

  lemma WritesOfTail(q: seq<Fetch>)
    requires q != []
    ensures WritesOf(q) == WritesOf(q[1..]) + WriteAddr(q[0])
  {
    WritesOfDrop(q, 0);
    assert q[..0] + q[1..] == q[1..];
  }

  lemma WritesOfNone()
    ensures WritesOf([]) == multiset{}
  {
    GatherNone(WriteAddr);
  }

  // A write stays where it is until it is called back.
  lemma AcceptWrites(m: State)
    ensures Writes(Accept(m)) == Writes(m)
  {
    hide WritesOf;
    if m.inQ != [] {
      WritesOfTail(m.inQ);
      WritesOfAdd(m.inside, m.inQ[0]);
    }
  }

  lemma CallBackWrites(m: State, j: nat)
    requires j < |m.inside|
    ensures Writes(m) == Writes(CallBack(m, j)) + WriteAddr(m.inside[j])
  {
    hide WritesOf;
    WritesOfDrop(m.inside, j);
  }

  lemma SendReads(m: State, f: Fetch)
    ensures Reads(Send(m, f)) == Reads(m) + ReadAddr(f)
  {
    hide ReadsOf;
    ReadsOfAdd(m.inQ, f);
  }

  // No read is lost or doubled on its way through the memory.
  lemma AcceptReads(m: State)
    ensures Reads(Accept(m)) == Reads(m)
    ensures Sound(m) ==> Sound(Accept(m))
  {
    hide ReadsOf;
    if m.inQ != [] {
      ReadsOfTail(m.inQ);
      ReadsOfAdd(m.inside, m.inQ[0]);
    }
  }

  lemma CallBackReads(m: State, j: nat)
    ensures Reads(CallBack(m, j)) == Reads(m)
    ensures Sound(m) ==> Sound(CallBack(m, j))
  {
    hide ReadsOf;
    if j < |m.inside| { ReadsOfDrop(m.inside, j); }
  }

  lemma {:induction false} CallBacksReads(m: State, finished: seq<nat>)
    ensures Reads(CallBacks(m, finished)) == Reads(m)
    ensures Sound(m) ==> Sound(CallBacks(m, finished))
    decreases |finished|
  {
    if finished != [] {
      CallBackReads(m, finished[0]);
      CallBacksReads(CallBack(m, finished[0]), finished[1..]);
    }
  }

  // The cycle keeps every read, and empty() means that none is there.
  lemma CycleReads(m: State, accepts: bool, finished: seq<nat>)
    requires Sound(m)
    ensures Sound(Cycle(m, accepts, finished)) && Reads(Cycle(m, accepts, finished)) == Reads(m)
    ensures Empty(m) ==> Reads(m) == multiset{}
  {
    hide Reads;
    AcceptReads(m);
    CallBacksReads(if accepts then Accept(m) else m, finished);
    if Empty(m) { EmptyReads(m); }
  }

  lemma EmptyReads(m: State)
    requires Sound(m) && Empty(m)
    ensures Reads(m) == multiset{}
  {
    ReadsOfNone();
  }

  // The requests that are called back, in order, and the addresses of the reads
  // among them.
  ghost function Called(inside: seq<Fetch>, finished: seq<nat>): seq<Fetch>
    decreases |finished|
  {
    if finished == [] then []
    else if finished[0] >= |inside| then Called(inside, finished[1..])
    else
      var j := finished[0];
      [inside[j]] + Called(inside[..j] + inside[j + 1..], finished[1..])
  }

  ghost function ReadAddrs(q: seq<Fetch>): seq<nat> {
    if q == [] then [] else (if q[0].read then [q[0].addr] else []) + ReadAddrs(q[1..])
  }

  // In a cycle the front request goes inside if the memory accepts it, and what
  // is called back leaves: the reads answered in that order, the writes silently.
  lemma CycleAnswers(m: State, accepts: bool, finished: seq<nat>)
    ensures var m', n := Cycle(m, accepts, finished), if accepts && m.inQ != [] then 1 else 0;
            var inside := m.inside + m.inQ[..n];
            && m'.inQ == m.inQ[n..] && m'.outQ == m.outQ + ReadAddrs(Called(inside, finished))
            && multiset(inside) == multiset(m'.inside) + multiset(Called(inside, finished))
  {
    hide CallBacks, Called;
    CallBacksAnswer(if accepts then Accept(m) else m, finished);
    if accepts && m.inQ != [] {
      assert m.inQ[..1] == [m.inQ[0]];
    } else {
      assert m.inside + m.inQ[..0] == m.inside;
    }
  }

  lemma {:induction false} CallBacksAnswer(m: State, finished: seq<nat>)
    ensures var m' := CallBacks(m, finished);
            && m'.inQ == m.inQ && m'.outQ == m.outQ + ReadAddrs(Called(m.inside, finished))
            && multiset(m.inside) == multiset(m'.inside) + multiset(Called(m.inside, finished))
    decreases |finished|
  {
    hide ReadAddrs, CallBack;
    if finished == [] {
      NoneCalled(m);
    } else {
      var m1 := CallBack(m, finished[0]);
      CallBacksAnswer(m1, finished[1..]);
      OneCalled(m, finished[0], Called(m1.inside, finished[1..]));
    }
  }

  lemma NoneCalled(m: State)
    ensures m.outQ + ReadAddrs([]) == m.outQ
  {
  }

  lemma OneCalled(m: State, j: nat, rest: seq<Fetch>)
    ensures var m' := CallBack(m, j);
            && m'.inQ == m.inQ
            && (j >= |m.inside| ==> m' == m)
            && (j < |m.inside| ==>
                  && m'.inside == m.inside[..j] + m.inside[j + 1..]
                  && multiset(m.inside) == multiset(m'.inside) + multiset{m.inside[j]}
                  && m'.outQ + ReadAddrs(rest) == m.outQ + ReadAddrs([m.inside[j]] + rest))
  {
    if j < |m.inside| {
      assert m.inside == m.inside[..j] + [m.inside[j]] + m.inside[j + 1..];
      assert ([m.inside[j]] + rest)[1..] == rest;
    }
  }

  class Wrapper {
    var inQueue: seq<Fetch>
    var inside: seq<Fetch>
    var outQueue: seq<nat>
    var outgoing: int
    var failed: bool

    constructor ()
      ensures View() == Fresh()
    {
      inQueue, inside, outQueue, outgoing, failed := [], [], [], 0, false;
    }

    ghost function View(): State
      reads this
    {
      State(inQueue, inside, outQueue, outgoing, failed)
    }

    method SendOne(addr: nat, read: bool)
      modifies this
      ensures View() == Send(old(View()), Fetch(read, addr))
    {
      inQueue := inQueue + [Fetch(read, addr)];
    }

    method Called(j: nat)
      modifies this
      ensures View() == CallBack(old(View()), j)
    {
      if j < |inside| {
        var f := inside[j];
        inside := inside[..j] + inside[j + 1..];
        outgoing := outgoing - 1;
        if outgoing < 0 { failed := true; }
        if f.read { outQueue := outQueue + [f.addr]; }
      }
    }

    method DoCycle(accepts: bool, finished: seq<nat>) returns (busy: bool)
      modifies this
      ensures View() == Cycle(old(View()), accepts, finished)
      ensures busy == (old(inQueue) != [])
    {
      busy := inQueue != [];
      if busy && accepts {
        outgoing := outgoing + 1;
        inside := inside + [inQueue[0]];
        inQueue := inQueue[1..];
      }
      var k := 0;
      while k < |finished|
        invariant k <= |finished|
        invariant CallBacks(View(), finished[k..]) == Cycle(old(View()), accepts, finished)
      {
        Called(finished[k]);
        k := k + 1;
      }
    }

    method PopOne() returns (addr: nat)
      requires outQueue != []
      modifies this
      ensures View() == Pop(old(View())) && addr == old(outQueue[0])
    {
      addr := outQueue[0];
      outQueue := outQueue[1..];
    }

    predicate IsEmpty()
      reads this
      ensures IsEmpty() <==> Empty(View())
    {
      inQueue == [] && outQueue == [] && outgoing == 0
    }
  }
}
