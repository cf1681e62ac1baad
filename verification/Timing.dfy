// When responses leave the delay queues of the cache: each partition answers in
// order, at most once a cycle, and at the first cycle that cache_delay allows.
module Timing {
  import opened Cache
  import opened CacheCycle
  import M = Memory

  // The cycles in which responses entered the delay queue of a partition, and
  // those in which they left it.
  datatype Times = Times(entered: seq<nat>, left: seq<nat>)

  // The front of queue q leaves in the next cycle.
  predicate DueNext(now: nat, q: seq<Timed>) { q != [] && now + 1 > q[0].since + CACHE_DELAY }

  function Popped(now: nat, q: seq<Timed>): seq<Timed> { if DueNext(now, q) then q[1..] else q }

  // One cycle in which queue q became q'.
  ghost function Advance(now: nat, q: seq<Timed>, q': seq<Timed>, t: Times): Times {
    var kept := |Popped(now, q)|;
    Times(t.entered + seq(if |q'| > kept then |q'| - kept else 0, _ => now + 1),
          t.left + if DueNext(now, q) then [now + 1] else [])
  }

  ghost function Logged(s: State, t: Times, r: Round, i: nat): Times
    requires Shape(s) && i < |s.ins|
  {
    Advance(s.now, s.delays[i], After(s, r).delays[i], t)
  }

  ghost function Log(s: State, rs: seq<Round>, i: nat): Times
    requires Shape(s) && i < |s.ins|
    decreases |rs|
  {
    if rs == [] then Times([], [])
    else
      var before := rs[..|rs| - 1];
      Logged(Rounds(s, before), Log(s, before, i), rs[|rs| - 1], i)
  }

  function Max(a: nat, b: nat): nat { if a > b then a else b }

  // The cycle in which response k leaves, if it entered in cycle e[k]: cache_delay
  // cycles, which are two, must have passed, and only one leaves a cycle.
  function Leaves(e: seq<nat>, k: nat): nat
    requires k < |e|
  {
    if k == 0 then e[0] + 3 else Max(e[k] + 3, Leaves(e, k - 1) + 1)
  }

  // Queue q has only been added to, in this cycle.
  ghost predicate Grows(q: seq<Timed>, q': seq<Timed>, now: nat) {
    |q| <= |q'| && q'[..|q|] == q && forall k :: |q| <= k < |q'| ==> q'[k].since == now
  }

  // From s to s' nothing left, and what entered a delay queue entered now.
  ghost predicate OnlyEnter(s: State, s': State)
    requires Shape(s) && Shape(s')
  {
    && |s'.ins| == |s.ins| && s'.now == s.now && s'.outs == s.outs
    && forall i :: 0 <= i < |s.delays| ==> Grows(s.delays[i], s'.delays[i], s.now)
  }

  lemma EnterThen(s: State, s1: State, s2: State)
    requires Shape(s) && Shape(s1) && Shape(s2) && OnlyEnter(s, s1) && OnlyEnter(s1, s2)
    ensures OnlyEnter(s, s2)
  {
    forall i | 0 <= i < |s.delays| ensures Grows(s.delays[i], s2.delays[i], s.now) {
      var q, q1, q2 := s.delays[i], s1.delays[i], s2.delays[i];
      assert q2[..|q|] == q1[..|q|];
      forall k | |q| <= k < |q2| ensures q2[k].since == s.now {
        if k < |q1| { assert q2[k] == q1[k]; }
      }
    }
  }

  lemma StampGrows(q: seq<Timed>, now: nat, xs: seq<Access>)
    ensures Grows(q, q + Stamp(now, xs), now) && Grows(q, q, now)
  {
  }

  lemma ProbeEnters(s: State, i: nat, o: Outcome)
    requires Shape(s) && i < |s.ins|
    ensures OnlyEnter(s, Apply(s, Probe(i, o)))
  {
    hide Block, Part, WriteBack, Waiters;
  }

  lemma RespEnters(s: State)
    requires Shape(s)
    ensures OnlyEnter(s, Apply(s, DramToResp)) && OnlyEnter(s, Apply(s, MissToDram))
  {
    hide Part;
    if Enabled(s, DramToResp) {
      var p := Part(s.respQ[0], |s.delays|);
      StampGrows(s.delays[p], s.now, Waiters(s, s.respQ[0]));
    }
  }

  lemma {:induction false} PortsEnter(s: State, i: nat, answers: seq<Outcome>)
    requires Shape(s) && i < |s.ins|
    ensures OnlyEnter(s, PortsOf(s, i, answers))
    decreases |answers|
  {
    hide Apply, OnlyEnter;
    if answers == [] || s.ins[i] == [] || |s.missQ| >= MISS_SIZE {
      EnterSame(s);
    } else {
      var s' := Apply(s, Probe(i, answers[0]));
      ProbeEnters(s, i, answers[0]);
      PortsEnter(s', i, answers[1..]);
      EnterThen(s, s', PortsOf(s, i, answers));
    }
  }

  lemma EnterSame(s: State)
    requires Shape(s)
    ensures OnlyEnter(s, s)
  {
  }

  lemma {:induction false} InsEnter(s: State, i: nat, answers: seq<seq<Outcome>>)
    requires Shape(s) && i <= |s.ins|
    ensures OnlyEnter(s, InsFrom(s, i, answers))
    decreases |s.ins| - i
  {
    hide PortsOf, OnlyEnter;
    if i == |s.ins| || i >= |answers| {
      EnterSame(s);
    } else {
      PortsEnter(s, i, answers[i]);
      InsEnter(PortsOf(s, i, answers[i]), i + 1, answers);
      EnterThen(s, PortsOf(s, i, answers[i]), InsFrom(s, i, answers));
    }
  }

  lemma {:induction false} DrainLeavesDelays(s: State)
    requires Shape(s)
    ensures DrainAll(s).delays == s.delays && DrainAll(s).now == s.now && DrainAll(s).outs == s.outs
    decreases |s.mem.outQ|
  {
    if s.mem.outQ != [] {
      DrainLeavesDelays(Apply(s, MemDrain));
    }
  }

  lemma {:induction false} DelaysPop(s: State, i: nat, k: nat)
    requires Shape(s) && i <= |s.ins| && k < |s.ins|
    ensures var s' := DelaysFrom(s, i);
            && s'.now == s.now
            && s'.delays[k] == (if k >= i && Due(s, k) then s.delays[k][1..] else s.delays[k])
            && s'.outs[k] == (if k >= i && Due(s, k) then s.outs[k] + [s.delays[k][0].x] else s.outs[k])
    decreases |s.ins| - i
  {
    if i < |s.ins| {
      DelaysPop(Apply(s, DelayToOut(i)), i + 1, k);
    }
  }

  // In a cycle at most the front response leaves, if it is due, and the others
  // that enter do so in this cycle.
  lemma CycleDelays(s: State, o: Oracle, i: nat)
    requires Shape(s) && i < |s.ins|
    ensures Cycle(s, o).now == s.now + 1
    ensures Grows(Popped(s.now, s.delays[i]), Cycle(s, o).delays[i], s.now + 1)
    ensures Cycle(s, o).outs[i] == s.outs[i] + if DueNext(s.now, s.delays[i]) then [s.delays[i][0].x] else []
  {
    hide DrainAll, InsFrom, DelaysFrom;
    var s1 := Front(s, o);
    DrainLeavesDelays(MemCycle(Apply(s, Tick), o));
    var s2 := DelaysFrom(s1, 0);
    DelaysPop(s1, 0, i);
    hide Apply;
    var s3 := Apply(s2, DramToResp);
    RespEnters(s2);
    RespEnters(s3);
    var s4 := Apply(s3, MissToDram);
    EnterThen(s2, s3, s4);
    InsEnter(s4, 0, o.answers);
    EnterThen(s2, s4, Cycle(s, o));
  }

  lemma {:induction false} TrafficLeavesDelays(s: State, acts: seq<Action>)
    requires Shape(s) && AtPorts(acts)
    ensures Run(s, acts).delays == s.delays && Run(s, acts).now == s.now
    decreases |acts|
  {
    if acts != [] {
      TrafficLeavesDelays(s, acts[..|acts| - 1]);
    }
  }

  // What has left did so at its time; what is still there is not yet due.
  ghost predicate OnTime(now: nat, q: seq<Timed>, t: Times)
  {
    && |t.left| + |q| == |t.entered|
    && (forall j :: 0 <= j < |q| ==> q[j].since == t.entered[|t.left| + j])
    && (forall k :: 0 <= k < |t.entered| ==> t.entered[k] <= now)
    && (forall k :: 0 <= k < |t.left| ==> t.left[k] == Leaves(t.entered, k) <= now)
    && (forall k :: |t.left| <= k < |t.entered| ==> Leaves(t.entered, k) > now)
  }

  lemma {:induction false} LeavesPrefix(e: seq<nat>, more: seq<nat>, k: nat)
    requires k < |e|
    ensures Leaves(e + more, k) == Leaves(e, k)
    decreases k
  {
    if k > 0 { LeavesPrefix(e, more, k - 1); }
  }

  // The front response leaves in the next cycle exactly if that is its time,
  // and no other is due then.
  lemma FrontIsDue(now: nat, q: seq<Timed>, t: Times)
    requires OnTime(now, q, t) && q != []
    ensures Leaves(t.entered, |t.left|) == now + 1 <==> now + 1 > q[0].since + CACHE_DELAY
    ensures forall k :: |t.left| < k < |t.entered| ==> Leaves(t.entered, k) > now + 1
  {
    assert q[0].since == t.entered[|t.left|];
    forall k | |t.left| < k < |t.entered| ensures Leaves(t.entered, k) > now + 1 {
      assert Leaves(t.entered, k - 1) > now;
    }
  }

  // One cycle on one queue: the front leaves if it is due, and others enter.
  lemma CycleOnTime(now: nat, q: seq<Timed>, t: Times, q': seq<Timed>)
    requires OnTime(now, q, t) && Grows(Popped(now, q), q', now + 1)
    ensures OnTime(now + 1, q', Advance(now, q, q', t))
  {
    var kept := Popped(now, q);
    var more: seq<nat> := seq(|q'| - |kept|, _ => now + 1);
    var t' := Advance(now, q, q', t);
    assert t'.entered == t.entered + more;
    if q != [] { FrontIsDue(now, q, t); }
    forall k | 0 <= k < |t.entered| ensures Leaves(t'.entered, k) == Leaves(t.entered, k) {
      LeavesPrefix(t.entered, more, k);
    }
    forall k | |t'.left| <= k < |t'.entered| ensures Leaves(t'.entered, k) > now + 1 {
    }
    forall j | 0 <= j < |q'| ensures q'[j].since == t'.entered[|t'.left| + j] {
      if j < |kept| { assert q'[j] == q'[..|kept|][j]; }
    }
  }

  lemma RoundOnTime(s: State, t: Times, r: Round, i: nat)
    requires Shape(s) && i < |s.ins| && AtPorts(r.traffic) && OnTime(s.now, s.delays[i], t)
    ensures OnTime(After(s, r).now, After(s, r).delays[i], Logged(s, t, r, i))
  {
    hide OnTime, Run, Cycle, Advance, Grows, Popped;
    TrafficLeavesDelays(s, r.traffic);
    CycleDelays(Run(s, r.traffic), r.o, i);
    CycleOnTime(s.now, s.delays[i], t, After(s, r).delays[i]);
  }

  // In every run, each response leaves exactly when Leaves says: in order, one
  // a cycle, and no later than that allows.
  lemma {:induction false} LeavesOnTime(n: nat, rs: seq<Round>, i: nat)
    requires n > 0 && i < n && forall k :: 0 <= k < |rs| ==> AtPorts(rs[k].traffic)
    ensures var s := Rounds(Start(n), rs); OnTime(s.now, s.delays[i], Log(Start(n), rs, i))
    decreases |rs|
  {
    if rs == [] {
      assert Rounds(Start(n), rs) == Start(n) && Log(Start(n), rs, i) == Times([], []);
    } else {
      hide OnTime, After, Logged, Start, AtPorts;
      var before, r := rs[..|rs| - 1], rs[|rs| - 1];
      assert forall k :: 0 <= k < |before| ==> before[k] == rs[k];
      LeavesOnTime(n, before, i);
      RoundOnTime(Rounds(Start(n), before), Log(Start(n), before, i), r, i);
    }
  }

  // The response at place j of the queue has left after j + 3 more cycles: the
  // latency is bounded by the queue it meets.
  lemma {:induction false} LatencyBound(now: nat, q: seq<Timed>, t: Times, j: nat)
    requires OnTime(now, q, t) && j < |q|
    ensures Leaves(t.entered, |t.left| + j) <= now + 3 + j
    decreases j
  {
    var k := |t.left| + j;
    if j > 0 {
      LatencyBound(now, q, t, j - 1);
    } else if k > 0 {
      assert Leaves(t.entered, k - 1) <= now;
    }
  }
}
