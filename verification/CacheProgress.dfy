// What a cycle of the cache gets done: no stage that can move holds anything
// back.
module CacheProgress {
  import opened Cache
  import opened CacheCycle
  import opened Forest
  import opened Timing
  import M = Memory

  // q' is q with something added behind.
  ghost predicate Adds<X>(q: seq<X>, q': seq<X>) { |q| <= |q'| && q'[..|q|] == q }

  lemma AddsThen<X>(a: seq<X>, b: seq<X>, c: seq<X>)
    requires Adds(a, b) && Adds(b, c)
    ensures Adds(a, c)
  {
    assert c[..|a|] == c[..|b|][..|a|];
  }

  // The queues behind the partitions are as they were.
  predicate SameBehind(s: State, s': State) { s'.mem == s.mem && s'.respQ == s.respQ }

  lemma {:induction false} DrainTakesAll(s: State)
    requires Shape(s)
    ensures var s' := DrainAll(s);
            && s'.respQ == s.respQ + s.mem.outQ && s'.mem == s.mem.(outQ := [])
            && s'.missQ == s.missQ && s'.ins == s.ins && s'.delays == s.delays && s'.now == s.now
    decreases |s.mem.outQ|
  {
    if s.mem.outQ == [] {
      assert s.respQ + s.mem.outQ == s.respQ;
    } else {
      var s1 := Apply(s, MemDrain);
      DrainTakesAll(s1);
      assert s.mem.outQ == [s.mem.outQ[0]] + s1.mem.outQ;
    }
  }

  lemma {:induction false} DelaysAside(s: State, i: nat)
    requires Shape(s) && i <= |s.ins|
    ensures var s' := DelaysFrom(s, i); SameBehind(s, s') && s'.missQ == s.missQ && s'.ins == s.ins
    decreases |s.ins| - i
  {
    if i < |s.ins| { DelaysAside(Apply(s, DelayToOut(i)), i + 1); }
  }

  predicate NoFailure(answers: seq<Outcome>) { forall k :: 0 <= k < |answers| ==> !answers[k].ResFail? }

  // d requests have left q; if the cache never lacked room, there was one for
  // each port, or q ran out, or the miss queue was full.
  predicate Served(q: seq<Access>, answers: seq<Outcome>, d: nat, misses: nat) {
    && d <= |q| && d <= |answers|
    && (NoFailure(answers) ==> d == |answers| || d == |q| || misses >= 64)
  }

  lemma ProbeMoves(s: State, i: nat, o: Outcome)
    requires Shape(s) && Enabled(s, Probe(i, o))
    ensures var s' := Apply(s, Probe(i, o));
            && SameBehind(s, s') && Adds(s.missQ, s'.missQ)
            && s'.ins == if o.ResFail? then s.ins else s.ins[i := s.ins[i][1..]]
  {
    hide Block, Part, Waiters;
  }

  lemma {:induction false} PortsMove(s: State, i: nat, answers: seq<Outcome>) returns (d: nat)
    requires Shape(s) && i < |s.ins|
    ensures var s' := PortsOf(s, i, answers);
            && SameBehind(s, s') && Adds(s.missQ, s'.missQ)
            && Served(s.ins[i], answers, d, |s'.missQ|) && s'.ins == s.ins[i := s.ins[i][d..]]
    decreases |answers|
  {
    hide Apply;
    if answers == [] || s.ins[i] == [] || |s.missQ| >= MISS_SIZE {
      d := 0;
      assert s.ins[i := s.ins[i][0..]] == s.ins;
    } else {
      var s1 := Apply(s, Probe(i, answers[0]));
      ProbeMoves(s, i, answers[0]);
      var d1 := PortsMove(s1, i, answers[1..]);
      var s' := PortsOf(s, i, answers);
      AddsThen(s.missQ, s1.missQ, s'.missQ);
      d := if answers[0].ResFail? then d1 else d1 + 1;
      if answers[0].ResFail? {
        assert !NoFailure(answers);
      } else {
        assert s.ins[i][1..][d1..] == s.ins[i][d..];
        if NoFailure(answers) { assert NoFailure(answers[1..]) by { TailSucceeds(answers); } }
      }
      assert s'.ins == s.ins[i := s.ins[i][d..]];
    }
  }

  lemma TailSucceeds(answers: seq<Outcome>)
    requires answers != [] && NoFailure(answers)
    ensures NoFailure(answers[1..])
  {
    forall k | 0 <= k < |answers| - 1 ensures !answers[1..][k].ResFail? {
      assert answers[1..][k] == answers[k + 1];
    }
  }

  // Partition k was served.
  ghost predicate ServedAt(s: State, s': State, answers: seq<seq<Outcome>>, k: nat)
    requires k < |s.ins| && k < |s'.ins| && k < |answers|
  {
    exists d: nat :: Served(s.ins[k], answers[k], d, |s'.missQ|) && s'.ins[k] == s.ins[k][d..]
  }

  lemma {:induction false} InsMove(s: State, i: nat, answers: seq<seq<Outcome>>)
    requires Shape(s) && i <= |s.ins| == |answers|
    ensures var s' := InsFrom(s, i, answers);
            && SameBehind(s, s') && Adds(s.missQ, s'.missQ)
            && (forall k :: 0 <= k < i ==> s'.ins[k] == s.ins[k])
            && (forall k :: i <= k < |s.ins| ==> ServedAt(s, s', answers, k))
    decreases |s.ins| - i
  {
    hide PortsOf;
    if i < |s.ins| {
      var s1, s' := PortsOf(s, i, answers[i]), InsFrom(s, i, answers);
      var d := PortsMove(s, i, answers[i]);
      InsMove(s1, i + 1, answers);
      AddsThen(s.missQ, s1.missQ, s'.missQ);
      forall k | i <= k < |s.ins| ensures ServedAt(s, s', answers, k) {
        if k == i {
          assert Served(s.ins[k], answers[k], d, |s'.missQ|);
        } else {
          assert s1.ins[k] == s.ins[k] && ServedAt(s1, s', answers, k);
          var e: nat :| Served(s1.ins[k], answers[k], e, |s'.missQ|) && s'.ins[k] == s1.ins[k][e..];
          assert Served(s.ins[k], answers[k], e, |s'.missQ|);
        }
      }
    }
  }

  // The blocks that wait to be handed out, in the course of a cycle.
  ghost function Returned(s: State, o: Oracle): seq<nat> {
    s.respQ + M.Cycle(s.mem, o.accepts, o.finished).outQ
  }

  // The front block finds room in the delay queue of its partition.
  ghost predicate HasRoom(s: State, o: Oracle)
    requires Shape(s)
  {
    && Returned(s, o) != []
    && |Popped(s.now, s.delays[Part(Returned(s, o)[0], |s.delays|)])| < 64
  }

  // In a cycle the DRAM does its own, all it returns is taken over, the front
  // block is handed out if there is room, the front fetch goes to the DRAM, and
  // every partition has a request served for each port, as long as it has one,
  // the cache has room and the miss queue is not full.
  lemma CycleMoves(s: State, o: Oracle)
    requires Shape(s) && |o.answers| == |s.ins|
    ensures var s', m, q := Cycle(s, o), M.Cycle(s.mem, o.accepts, o.finished), Returned(s, o);
            && s'.mem == m.(inQ := m.inQ + s.missQ[..if s.missQ == [] then 0 else 1], outQ := [])
            && s'.respQ == (if HasRoom(s, o) then q[1..] else q)
            && Adds(s.missQ[if s.missQ == [] then 0 else 1..], s'.missQ)
            && (forall k :: 0 <= k < |s.ins| ==> ServedAt(s, s', o.answers, k))
  {
    hide DrainAll, InsFrom, DelaysFrom, M.Cycle, Popped, ServedAt, Part, Adds;
    var s0 := MemCycle(Apply(s, Tick), o);
    DrainTakesAll(s0);
    var s1 := Front(s, o);
    DelaysAside(s1, 0);
    var s2 := DelaysFrom(s1, 0);
    RoomIs(s, o);
    var s3 := Apply(s2, DramToResp);
    RespMoves(s2);
    var s4 := Apply(s3, MissToDram);
    MissMoves(s3);
    InsMove(s4, 0, o.answers);
    var s' := Cycle(s, o);
    assert s' == InsFrom(s4, 0, o.answers);
    forall k | 0 <= k < |s.ins| ensures ServedAt(s, s', o.answers, k) {
      ServedSame(s4, s, s', o.answers, k);
    }
  }

  lemma ServedSame(s1: State, s: State, s': State, answers: seq<seq<Outcome>>, k: nat)
    requires s1.ins == s.ins && k < |s.ins| && k < |s'.ins| && k < |answers| && ServedAt(s1, s', answers, k)
    ensures ServedAt(s, s', answers, k)
  {
  }

  lemma RoomIs(s: State, o: Oracle)
    requires Shape(s)
    ensures var s2 := DelaysFrom(Front(s, o), 0);
            s2.respQ == Returned(s, o) && (Enabled(s2, DramToResp) <==> HasRoom(s, o))
  {
    hide DrainAll, DelaysFrom, M.Cycle, Part;
    var s0 := MemCycle(Apply(s, Tick), o);
    DrainTakesAll(s0);
    var s1 := Front(s, o);
    DelaysAside(s1, 0);
    if Returned(s, o) != [] {
      var p := Part(Returned(s, o)[0], |s.delays|);
      DelaysPop(s1, 0, p);
    }
  }

  lemma RespMoves(s: State)
    requires Shape(s)
    ensures var s' := Apply(s, DramToResp);
            && s'.respQ == (if Enabled(s, DramToResp) then s.respQ[1..] else s.respQ)
            && s'.mem == s.mem && s'.missQ == s.missQ && s'.ins == s.ins
  {
    hide Part, Waiters;
  }

  lemma MissMoves(s: State)
    requires Shape(s)
    ensures var s', n := Apply(s, MissToDram), if s.missQ == [] then 0 else 1;
            && s'.mem == s.mem.(inQ := s.mem.inQ + s.missQ[..n]) && s'.missQ == s.missQ[n..]
            && s'.respQ == s.respQ && s'.ins == s.ins
  {
    if s.missQ == [] { assert s.mem.inQ + [] == s.mem.inQ; }
  }
}
