// One call of cache_interface::do_cycle, as the stages of the source in their
// order, and as a run of the actions of module Cache.
module CacheCycle {
  import opened Forest
  import opened Cache
  import M = Memory

  // What the memory and the cache arrays do in a cycle: whether the memory
  // accepts a request, the requests it calls back, and, for each port of each
  // partition, the answer of the cache.
  datatype Oracle = Oracle(accepts: bool, finished: seq<nat>, answers: seq<seq<Outcome>>)

  function MemCycle(s: State, o: Oracle): (s': State)
    requires Shape(s)
    ensures Shape(s') && |s'.ins| == |s.ins|
  {
    s.(mem := M.Cycle(s.mem, o.accepts, o.finished))
  }

  function DrainAll(s: State): (s': State)
    requires Shape(s)
    ensures Shape(s') && |s'.ins| == |s.ins|
    decreases |s.mem.outQ|
  {
    if s.mem.outQ == [] then s else DrainAll(Apply(s, MemDrain))
  }

  // Each partition sends out at most one response.
  function DelaysFrom(s: State, i: nat): (s': State)
    requires Shape(s) && i <= |s.ins|
    ensures Shape(s') && |s'.ins| == |s.ins|
    decreases |s.ins| - i
  {
    if i == |s.ins| then s else DelaysFrom(Apply(s, DelayToOut(i)), i + 1)
  }

  // Partition i tries its front request once per port, as long as there is one
  // and the miss queue is not full.
  function PortsOf(s: State, i: nat, answers: seq<Outcome>): (s': State)
    requires Shape(s) && i < |s.ins|
    ensures Shape(s') && |s'.ins| == |s.ins|
    decreases |answers|
  {
    if answers == [] || s.ins[i] == [] || |s.missQ| >= MISS_SIZE then s
    else PortsOf(Apply(s, Probe(i, answers[0])), i, answers[1..])
  }

  function InsFrom(s: State, i: nat, answers: seq<seq<Outcome>>): (s': State)
    requires Shape(s) && i <= |s.ins|
    ensures Shape(s') && |s'.ins| == |s.ins|
    decreases |s.ins| - i
  {
    if i == |s.ins| || i >= |answers| then s else InsFrom(PortsOf(s, i, answers[i]), i + 1, answers)
  }

  // The DRAM, and what it returned.
  function Front(s: State, o: Oracle): (s': State)
    requires Shape(s)
    ensures Shape(s') && |s'.ins| == |s.ins|
  {
    DrainAll(MemCycle(Apply(s, Tick), o))
  }

  // The queues from the delay queues back to the miss queue.
  function Middle(s: State): (s': State)
    requires Shape(s)
    ensures Shape(s') && |s'.ins| == |s.ins|
  {
    Apply(Apply(DelaysFrom(s, 0), DramToResp), MissToDram)
  }

  function Cycle(s: State, o: Oracle): (s': State)
    requires Shape(s)
    ensures Shape(s') && |s'.ins| == |s.ins|
  {
    InsFrom(Middle(Front(s, o)), 0, o.answers)
  }

  // The actions of each stage.
  ghost function CallActs(finished: seq<nat>): seq<Action> {
    if finished == [] then [] else [MemCalls(finished[0])] + CallActs(finished[1..])
  }

  ghost function MemActs(o: Oracle): seq<Action> {
    (if o.accepts then [MemAccept] else []) + CallActs(o.finished)
  }

  ghost function DrainActs(s: State): seq<Action>
    requires Shape(s)
    decreases |s.mem.outQ|
  {
    if s.mem.outQ == [] then [] else [MemDrain] + DrainActs(Apply(s, MemDrain))
  }

  ghost function DelayActs(i: nat, n: nat): seq<Action>
    requires i <= n
    decreases n - i
  {
    if i == n then [] else [DelayToOut(i)] + DelayActs(i + 1, n)
  }

  ghost function PortActs(s: State, i: nat, answers: seq<Outcome>): seq<Action>
    requires Shape(s) && i < |s.ins|
    decreases |answers|
  {
    if answers == [] || s.ins[i] == [] || |s.missQ| >= MISS_SIZE then []
    else [Probe(i, answers[0])] + PortActs(Apply(s, Probe(i, answers[0])), i, answers[1..])
  }

  ghost function InActs(s: State, i: nat, answers: seq<seq<Outcome>>): seq<Action>
    requires Shape(s) && i <= |s.ins|
    decreases |s.ins| - i
  {
    if i == |s.ins| || i >= |answers| then []
    else PortActs(s, i, answers[i]) + InActs(PortsOf(s, i, answers[i]), i + 1, answers)
  }

  ghost function FrontActs(s: State, o: Oracle): seq<Action>
    requires Shape(s)
  {
    [Tick] + MemActs(o) + DrainActs(MemCycle(Apply(s, Tick), o))
  }

  ghost function MiddleActs(s: State): seq<Action> { DelayActs(0, |s.ins|) + [DramToResp, MissToDram] }

  ghost function Trace(s: State, o: Oracle): seq<Action>
    requires Shape(s)
  {
    FrontActs(s, o) + MiddleActs(s) + InActs(Middle(Front(s, o)), 0, o.answers)
  }

  lemma {:induction false} RunThen(s: State, a: seq<Action>, b: seq<Action>)
    requires Shape(s)
    ensures Run(s, a + b) == Run(Run(s, a), b)
    decreases |b|
  {
    hide Apply, Enabled;
    if b == [] {
      assert a + b == a;
    } else {
      var n := |b| - 1;
      RunThen(s, a, b[..n]);
      assert (a + b)[..|a + b| - 1] == a + b[..n];
    }
  }

  lemma RunOne(s: State, a: Action)
    requires Shape(s)
    ensures Run(s, [a]) == Apply(s, a)
  {
    hide Apply;
    assert Run(s, []) == s;
    assert [a][..0] == [];
  }

  // a first, then the rest.
  lemma RunNext(s: State, a: Action, rest: seq<Action>)
    requires Shape(s)
    ensures Run(s, [a] + rest) == Run(Apply(s, a), rest)
  {
    hide Apply, Run;
    RunThen(s, [a], rest);
    RunOne(s, a);
  }

  lemma {:induction false} CallsRun(s: State, finished: seq<nat>)
    requires Shape(s)
    ensures Run(s, CallActs(finished)) == s.(mem := M.CallBacks(s.mem, finished))
    decreases |finished|
  {
    if finished != [] {
      RunNext(s, MemCalls(finished[0]), CallActs(finished[1..]));
      assert Apply(s, MemCalls(finished[0])) == s.(mem := M.CallBack(s.mem, finished[0]));
      hide Run, Apply;
      CallsRun(s.(mem := M.CallBack(s.mem, finished[0])), finished[1..]);
    }
  }

  lemma MemRun(s: State, o: Oracle)
    requires Shape(s)
    ensures Run(s, MemActs(o)) == MemCycle(s, o)
  {
    var s' := if o.accepts then s.(mem := M.Accept(s.mem)) else s;
    if o.accepts {
      RunOne(s, MemAccept);
      assert Apply(s, MemAccept) == s';
    }
    hide Apply;
    var first: seq<Action> := if o.accepts then [MemAccept] else [];
    assert Run(s, first) == s';
    RunThen(s, first, CallActs(o.finished));
    CallsRun(s', o.finished);
  }

  lemma {:induction false} DrainRun(s: State)
    requires Shape(s)
    ensures Run(s, DrainActs(s)) == DrainAll(s)
    decreases |s.mem.outQ|
  {
    if s.mem.outQ != [] {
      var s' := Apply(s, MemDrain);
      RunNext(s, MemDrain, DrainActs(s'));
      assert |s'.mem.outQ| < |s.mem.outQ|;
      hide Run, Apply;
      DrainRun(s');
    }
  }

  lemma {:induction false} DelayRun(s: State, i: nat)
    requires Shape(s) && i <= |s.ins|
    ensures Run(s, DelayActs(i, |s.ins|)) == DelaysFrom(s, i)
    decreases |s.ins| - i
  {
    hide Apply;
    if i < |s.ins| {
      RunNext(s, DelayToOut(i), DelayActs(i + 1, |s.ins|));
      DelayRun(Apply(s, DelayToOut(i)), i + 1);
    }
  }

  lemma {:induction false} PortRun(s: State, i: nat, answers: seq<Outcome>)
    requires Shape(s) && i < |s.ins|
    ensures Run(s, PortActs(s, i, answers)) == PortsOf(s, i, answers)
    decreases |answers|
  {
    hide Apply;
    if answers != [] && s.ins[i] != [] && |s.missQ| < MISS_SIZE {
      var s' := Apply(s, Probe(i, answers[0]));
      RunNext(s, Probe(i, answers[0]), PortActs(s', i, answers[1..]));
      PortRun(s', i, answers[1..]);
    }
  }

  lemma {:induction false} InRun(s: State, i: nat, answers: seq<seq<Outcome>>)
    requires Shape(s) && i <= |s.ins|
    ensures Run(s, InActs(s, i, answers)) == InsFrom(s, i, answers)
    decreases |s.ins| - i
  {
    hide Apply, PortActs;
    if i < |s.ins| && i < |answers| {
      PortRun(s, i, answers[i]);
      var s' := PortsOf(s, i, answers[i]);
      InRun(s', i + 1, answers);
      RunThen(s, PortActs(s, i, answers[i]), InActs(s', i + 1, answers));
    }
  }

  lemma FrontRun(s: State, o: Oracle)
    requires Shape(s)
    ensures Run(s, FrontActs(s, o)) == Front(s, o)
  {
    hide Apply, Run, MemActs, DrainActs, MemCycle, DrainAll;
    var s0 := Apply(s, Tick);
    RunOne(s, Tick);
    RunThen(s, [Tick], MemActs(o));
    MemRun(s0, o);
    RunThen(s, [Tick] + MemActs(o), DrainActs(MemCycle(s0, o)));
    DrainRun(MemCycle(s0, o));
  }

  lemma MiddleRun(s: State)
    requires Shape(s)
    ensures Run(s, MiddleActs(s)) == Middle(s)
  {
    hide Apply, Run, DelayActs, DelaysFrom;
    RunThen(s, DelayActs(0, |s.ins|), [DramToResp, MissToDram]);
    DelayRun(s, 0);
    var s' := DelaysFrom(s, 0);
    RunNext(s', DramToResp, [MissToDram]);
    RunOne(Apply(s', DramToResp), MissToDram);
    assert [DramToResp] + [MissToDram] == [DramToResp, MissToDram];
  }

  // A cycle is a run: whatever holds along all runs holds cycle by cycle.
  lemma CycleIsRun(s: State, o: Oracle)
    requires Shape(s)
    ensures Run(s, Trace(s, o)) == Cycle(s, o)
  {
    hide Run, FrontActs, MiddleActs, InActs, Front, Middle, InsFrom;
    FrontRun(s, o);
    RunThen(s, FrontActs(s, o), MiddleActs(s));
    var s1 := Front(s, o);
    assert MiddleActs(s1) == MiddleActs(s) by { SameWidth(s, s1); }
    MiddleRun(s1);
    RunThen(s, FrontActs(s, o) + MiddleActs(s), InActs(Middle(s1), 0, o.answers));
    InRun(Middle(s1), 0, o.answers);
  }

  lemma SameWidth(s: State, s': State)
    requires |s'.ins| == |s.ins|
    ensures MiddleActs(s') == MiddleActs(s)
  {
  }

  // Requests come and responses are taken at the ports; then a cycle passes.
  datatype Round = Round(traffic: seq<Action>, o: Oracle)

  predicate AtPorts(acts: seq<Action>) { forall k :: 0 <= k < |acts| ==> acts[k].Arrive? || acts[k].Take? }

  function After(s: State, r: Round): (s': State)
    requires Shape(s)
    ensures Shape(s') && |s'.ins| == |s.ins|
  {
    Cycle(Run(s, r.traffic), r.o)
  }

  function Rounds(s: State, rs: seq<Round>): (s': State)
    requires Shape(s)
    ensures Shape(s') && |s'.ins| == |s.ins|
    decreases |rs|
  {
    if rs == [] then s else After(Rounds(s, rs[..|rs| - 1]), rs[|rs| - 1])
  }
}
