// The miss table over whole cycles: do_cycle after do_cycle, with any traffic at
// the ports in between, any answers of the DRAM, and legal answers of the cache.
module CacheRuns {
  import opened Cache
  import opened CacheCycle
  import opened Forest
  import opened MissTable
  import M = Memory

  // The answers that one partition meets in a cycle are legal where they are
  // used.
  predicate PortsLegal(s: State, i: nat, answers: seq<Outcome>)
    requires Shape(s) && i < |s.ins|
    decreases |answers|
  {
    answers == [] || s.ins[i] == [] || |s.missQ| >= MISS_SIZE ||
    (Legal(s, Probe(i, answers[0])) && PortsLegal(Apply(s, Probe(i, answers[0])), i, answers[1..]))
  }

  predicate InsLegal(s: State, i: nat, answers: seq<seq<Outcome>>)
    requires Shape(s) && i <= |s.ins|
    decreases |s.ins| - i
  {
    i == |s.ins| || i >= |answers| ||
    (PortsLegal(s, i, answers[i]) && InsLegal(PortsOf(s, i, answers[i]), i + 1, answers))
  }

  predicate LegalCycle(s: State, o: Oracle)
    requires Shape(s)
  {
    InsLegal(Middle(Front(s, o)), 0, o.answers)
  }

  // Each partition is sent its own addresses only.
  predicate LegalTraffic(n: nat, acts: seq<Action>)
    requires n > 0
  {
    AtPorts(acts) && forall k :: 0 <= k < |acts| && acts[k].Arrive? ==> Part(Block(acts[k].x.addr), n) == acts[k].i
  }

  predicate LegalRounds(s: State, rs: seq<Round>)
    requires Shape(s)
    decreases |rs|
  {
    rs == [] ||
    (var before, r := rs[..|rs| - 1], rs[|rs| - 1];
     LegalRounds(s, before) && LegalTraffic(|s.ins|, r.traffic)
     && LegalCycle(Run(Rounds(s, before), r.traffic), r.o))
  }

  // The rounds as one list of actions.
  ghost function Acts(s: State, rs: seq<Round>): seq<Action>
    requires Shape(s)
    decreases |rs|
  {
    if rs == [] then []
    else
      var before, r := rs[..|rs| - 1], rs[|rs| - 1];
      Acts(s, before) + r.traffic + Trace(Run(Rounds(s, before), r.traffic), r.o)
  }

  lemma {:induction false} ActsRun(s: State, rs: seq<Round>)
    requires Shape(s)
    ensures Run(s, Acts(s, rs)) == Rounds(s, rs)
    decreases |rs|
  {
    hide Run, Cycle, Trace;
    if rs == [] {
      assert Run(s, []) == s by { RunNone(s); }
    } else {
      var before, r := rs[..|rs| - 1], rs[|rs| - 1];
      var s1 := Rounds(s, before);
      ActsRun(s, before);
      RunThen(s, Acts(s, before), r.traffic);
      RunThen(s, Acts(s, before) + r.traffic, Trace(Run(s1, r.traffic), r.o));
      CycleIsRun(Run(s1, r.traffic), r.o);
    }
  }

  lemma RunNone(s: State)
    requires Shape(s)
    ensures Run(s, []) == s
  {
  }

  lemma {:induction false} ProperThen(s: State, a: seq<Action>, b: seq<Action>)
    requires Shape(s) && Proper(s, a) && Proper(Run(s, a), b)
    ensures Proper(s, a + b)
    decreases |b|
  {
    hide Proper, Run, Apply, Enabled, Legal;
    if b == [] {
      assert a + b == a;
    } else {
      var n := |b| - 1;
      ProperLast(Run(s, a), b);
      ProperThen(s, a, b[..n]);
      RunThen(s, a, b[..n]);
      ProperAdd(s, a + b[..n], b[n]);
      assert (a + b[..n]) + [b[n]] == a + b;
    }
  }

  predicate Allows(s: State, a: Action) { Enabled(s, a) ==> Legal(s, a) }

  lemma ProperLast(s: State, acts: seq<Action>)
    requires Shape(s) && acts != [] && Proper(s, acts)
    ensures var n := |acts| - 1; Proper(s, acts[..n]) && Allows(Run(s, acts[..n]), acts[n])
  {
    hide Run, Apply;
  }

  lemma ProperAdd(s: State, acts: seq<Action>, a: Action)
    requires Shape(s) && Proper(s, acts) && Allows(Run(s, acts), a)
    ensures Proper(s, acts + [a])
  {
    hide Run, Apply;
    assert (acts + [a])[..|acts|] == acts;
  }

  lemma ProperNext(s: State, a: Action, rest: seq<Action>)
    requires Shape(s) && (Enabled(s, a) ==> Legal(s, a)) && Proper(Apply(s, a), rest)
    ensures Proper(s, [a] + rest)
  {
    hide Apply, Enabled, Legal;
    RunOne(s, a);
    RunNone(s);
    assert [a][..0] == [] && Proper(s, []);
    assert Proper(s, [a]);
    ProperThen(s, [a], rest);
  }

  // Nothing is asked of the surroundings but at arrivals and answers.
  predicate Free(acts: seq<Action>) { forall k :: 0 <= k < |acts| ==> !acts[k].Arrive? && !acts[k].Probe? }

  lemma {:induction false} FreeProper(s: State, acts: seq<Action>)
    requires Shape(s) && Free(acts)
    ensures Proper(s, acts)
    decreases |acts|
  {
    if acts != [] { FreeProper(s, acts[..|acts| - 1]); }
  }

  lemma {:induction false} TrafficProper(s: State, acts: seq<Action>)
    requires Shape(s) && LegalTraffic(|s.ins|, acts)
    ensures Proper(s, acts)
    decreases |acts|
  {
    if acts != [] { TrafficProper(s, acts[..|acts| - 1]); }
  }

  lemma {:induction false} CallsFree(finished: seq<nat>)
    ensures Free(CallActs(finished))
    decreases |finished|
  {
    if finished != [] { CallsFree(finished[1..]); }
  }

  lemma {:induction false} DrainFree(s: State)
    requires Shape(s)
    ensures Free(DrainActs(s))
    decreases |s.mem.outQ|
  {
    if s.mem.outQ != [] { DrainFree(Apply(s, MemDrain)); }
  }

  lemma {:induction false} DelayFree(i: nat, n: nat)
    requires i <= n
    ensures Free(DelayActs(i, n))
    decreases n - i
  {
    if i < n { DelayFree(i + 1, n); }
  }

  lemma {:induction false} PortsProper(s: State, i: nat, answers: seq<Outcome>)
    requires Shape(s) && i < |s.ins| && PortsLegal(s, i, answers)
    ensures Proper(s, PortActs(s, i, answers))
    decreases |answers|
  {
    hide Apply, Legal;
    if answers != [] && s.ins[i] != [] && |s.missQ| < MISS_SIZE {
      var s' := Apply(s, Probe(i, answers[0]));
      PortsProper(s', i, answers[1..]);
      ProperNext(s, Probe(i, answers[0]), PortActs(s', i, answers[1..]));
    }
  }

  lemma {:induction false} InsProper(s: State, i: nat, answers: seq<seq<Outcome>>)
    requires Shape(s) && i <= |s.ins| && InsLegal(s, i, answers)
    ensures Proper(s, InActs(s, i, answers))
    decreases |s.ins| - i
  {
    hide Apply, Legal, PortsLegal, PortActs, PortsOf, Proper, Run;
    if i == |s.ins| || i >= |answers| {
      FreeProper(s, []);
    } else {
      PortsProper(s, i, answers[i]);
      PortRun(s, i, answers[i]);
      InsProper(PortsOf(s, i, answers[i]), i + 1, answers);
      ProperThen(s, PortActs(s, i, answers[i]), InActs(PortsOf(s, i, answers[i]), i + 1, answers));
    }
  }

  lemma TraceProper(s: State, o: Oracle)
    requires Shape(s) && LegalCycle(s, o)
    ensures Proper(s, Trace(s, o))
  {
    hide Apply, Proper, Run, Front, Middle, InsLegal, InActs, MemActs, DrainActs, DelayActs, MemCycle;
    MemFree(o);
    DrainFree(MemCycle(Apply(s, Tick), o));
    DelayFree(0, |s.ins|);
    var acts := FrontActs(s, o) + MiddleActs(s);
    FreeProper(s, acts);
    RunThen(s, FrontActs(s, o), MiddleActs(s));
    FrontRun(s, o);
    MiddleRun(Front(s, o));
    SameWidth(s, Front(s, o));
    InsProper(Middle(Front(s, o)), 0, o.answers);
    ProperThen(s, acts, InActs(Middle(Front(s, o)), 0, o.answers));
  }

  lemma MemFree(o: Oracle)
    ensures Free(MemActs(o))
  {
    CallsFree(o.finished);
  }

  lemma {:induction false} RoundsProper(s: State, rs: seq<Round>)
    requires Shape(s) && LegalRounds(s, rs)
    ensures Proper(s, Acts(s, rs))
    decreases |rs|
  {
    hide Apply, Proper, Run, Trace, LegalCycle, LegalTraffic, Cycle;
    if rs == [] {
      FreeProper(s, []);
    } else {
      var before, r := rs[..|rs| - 1], rs[|rs| - 1];
      var s1 := Rounds(s, before);
      RoundsProper(s, before);
      ActsRun(s, before);
      TrafficProper(s1, r.traffic);
      ProperThen(s, Acts(s, before), r.traffic);
      RunThen(s, Acts(s, before), r.traffic);
      TraceProper(Run(s1, r.traffic), r.o);
      ProperThen(s, Acts(s, before) + r.traffic, Trace(Run(s1, r.traffic), r.o));
    }
  }

  // What was accepted and taken in these rounds.
  ghost function RoundNotes(n: nat, rs: seq<Round>): (h: History)
    requires n > 0
    ensures |h.accepted| == |h.taken| == n
  {
    Notes(Start(n), Acts(Start(n), rs))
  }

  // After every cycle of every such run: the table agrees with the reservations
  // and the fetches, each accepted read is in one place or taken, the miss
  // queue is bounded, the parallel count is right, and no assert has failed.
  lemma RoundsKeep(n: nat, rs: seq<Round>)
    requires n > 0 && LegalRounds(Start(n), rs)
    ensures Inv(Rounds(Start(n), rs), RoundNotes(n, rs))
  {
    hide Inv, Run, Rounds, Notes, Acts, Proper, LegalRounds;
    RoundsProper(Start(n), rs);
    ActsRun(Start(n), rs);
    RunKeeps(n, Acts(Start(n), rs));
  }

  // And no write has been answered.
  lemma RoundsAnswerReads(n: nat, rs: seq<Round>, i: nat, x: Access)
    requires n > 0 && LegalRounds(Start(n), rs) && i < n && x.write
    ensures RoundNotes(n, rs).taken[i][x] == 0
  {
    hide Run, Rounds, Notes, Acts, Proper, LegalRounds, Start;
    RoundsProper(Start(n), rs);
    WritesUnanswered(n, Acts(Start(n), rs), i, x);
  }

  // Nor has a dirty block been lost, doubled or made up: those that the answers
  // of the cache named are the writes on their way to the DRAM, inside it, and
  // called back.
  lemma RoundsWriteBack(n: nat, rs: seq<Round>)
    requires n > 0 && LegalRounds(Start(n), rs)
    ensures var s, h := Rounds(Start(n), rs), RoundNotes(n, rs);
            && h.victims == M.WritesOf(s.missQ) + M.WritesOf(s.mem.inQ) + M.WritesOf(s.mem.inside) + h.written
            && (Empty(s) ==> h.victims == h.written && s.parallel == |h.victims|)
  {
    hide Inv, Rounds, RoundNotes, LegalRounds, Start, M.WritesOf, Empty;
    RoundsKeep(n, rs);
    var s, h := Rounds(Start(n), rs), RoundNotes(n, rs);
    VictimsWritten(s, h);
    assert h.victims == M.WritesOf(s.missQ) + M.WritesOf(s.mem.inQ) + M.WritesOf(s.mem.inside) + h.written;
    assert Empty(s) ==> h.victims == h.written && s.parallel == |h.victims|;
  }

  // The line of 64 bytes that starts at b holds the address of x.
  predicate LineHolds(b: nat, x: Access) { b % 64 == 0 && b <= x.addr % 0x1_0000_0000 < b + 64 }

  // Each request in the table waits for the line its address lies in.
  ghost predicate InLine(s: State) { forall b, x :: b in s.waiting && x in s.waiting[b] ==> LineHolds(b, x) }

  // No line is fetched twice at a time.
  ghost predicate LinesApart(s: State) {
    forall b, b' :: b in Outstanding(s) && b' in Outstanding(s) && b / 64 == b' / 64 ==>
      b == b' && Outstanding(s)[b] == 1
  }

  lemma InvInLine(s: State, h: History)
    requires Shape(s) && Inv(s, h)
    ensures InLine(s)
  {
    hide Inv, Outstanding;
    forall b, x | b in s.waiting && x in s.waiting[b] ensures LineHolds(b, x) {
      WaitsForItsLine(s, h, b, x);
    }
  }

  lemma InvLinesApart(s: State, h: History)
    requires Shape(s) && Inv(s, h)
    ensures LinesApart(s)
  {
    hide Inv, Outstanding;
    forall b, b' | b in Outstanding(s) && b' in Outstanding(s) && b / 64 == b' / 64
      ensures b == b' && Outstanding(s)[b] == 1
    {
      OneFetchALine(s, h, b, b');
    }
  }

  lemma RoundsFetchLines(n: nat, rs: seq<Round>)
    requires n > 0 && LegalRounds(Start(n), rs)
    ensures InLine(Rounds(Start(n), rs)) && LinesApart(Rounds(Start(n), rs))
  {
    hide Inv, Rounds, RoundNotes, LegalRounds, Start, InLine, LinesApart;
    RoundsKeep(n, rs);
    InvInLine(Rounds(Start(n), rs), RoundNotes(n, rs));
    InvLinesApart(Rounds(Start(n), rs), RoundNotes(n, rs));
  }

  // An idle cycle is one of these rounds.
  lemma IdleRound()
    ensures LegalRounds(Start(1), [Round([], Oracle(false, [], [[]]))])
  {
    assert [Round([], Oracle(false, [], [[]]))][..0] == [];
    assert LegalRounds(Start(1), []);
  }

  // Two reads of one line, of which the first misses and evicts a dirty block.
  const FIRST: Access := Access(false, 0x40, 1)
  const SECOND: Access := Access(false, 0x44, 2)
  const EVICTS: Outcome := Miss(Some(0x1000))

  ghost function Waiting(ins: seq<Access>): State {
    Start(1).(ins := [ins])
  }

  ghost function Missed(ins: seq<Access>, list: seq<Access>): State {
    Waiting(ins).(waiting := map[0x40 := list], reserved := [{0x40}],
                  missQ := [M.Fetch(false, 0x1000), M.Fetch(true, 0x40)])
  }

  lemma TwoArrive()
    ensures Apply(Start(1), Arrive(0, FIRST)) == Waiting([FIRST]) && Allows(Start(1), Arrive(0, FIRST))
    ensures Apply(Waiting([FIRST]), Arrive(0, SECOND)) == Waiting([FIRST, SECOND])
    ensures Allows(Waiting([FIRST]), Arrive(0, SECOND))
  {
    assert Part(Block(FIRST.addr), 1) == Part(Block(SECOND.addr), 1) == 0;
    assert Start(1).ins == [[]] && Start(1).ins[0] + [FIRST] == [FIRST];
    assert Start(1).ins[0 := [FIRST]] == [[FIRST]];
    assert [FIRST] + [SECOND] == [FIRST, SECOND];
  }

  lemma OneMisses()
    ensures Apply(Waiting([FIRST, SECOND]), Probe(0, EVICTS)) == Missed([SECOND], [FIRST])
    ensures Allows(Waiting([FIRST, SECOND]), Probe(0, EVICTS))
  {
    assert Block(FIRST.addr) == 0x40;
    var s, s' := Waiting([FIRST, SECOND]), Missed([SECOND], [FIRST]);
    assert Waiters(s, 0x40) + [FIRST] == [FIRST];
    assert s.reserved == [{}] && s.reserved[0] + {0x40} == {0x40};
    assert s.reserved[0 := s.reserved[0] + {0x40}] == [{0x40}];
    assert ProbeStep(s, 0, EVICTS).missQ == s'.missQ;
    assert ProbeStep(s, 0, EVICTS).waiting == s'.waiting;
    assert ProbeStep(s, 0, EVICTS).ins == s'.ins;
    assert [FIRST, SECOND][1..] == [SECOND];
  }

  lemma OneJoins()
    ensures Apply(Missed([SECOND], [FIRST]), Probe(0, HitReserved)) == Missed([], [FIRST, SECOND])
    ensures Allows(Missed([SECOND], [FIRST]), Probe(0, HitReserved))
  {
    assert Block(0x44) == 0x40;
    hide Block, Part;
    assert [FIRST] + [SECOND] == [FIRST, SECOND] && [SECOND][1..] == [];
  }

  // The block is written back, the line is fetched once, both reads wait for it,
  // and no assert fails.
  lemma MissThenReserved()
    ensures var acts := [Arrive(0, FIRST), Arrive(0, SECOND), Probe(0, EVICTS), Probe(0, HitReserved)];
            var s := Run(Start(1), acts);
            && Proper(Start(1), acts) && !s.failed
            && s.missQ == [M.Fetch(false, 0x1000), M.Fetch(true, 0x40)] && s.waiting == map[0x40 := [FIRST, SECOND]]
  {
    hide Run, Proper, Apply, Allows, Start;
    var p0: seq<Action>, s0 := [], Start(1);
    var p1 := p0 + [Arrive(0, FIRST)];
    var p2 := p1 + [Arrive(0, SECOND)];
    var p3 := p2 + [Probe(0, EVICTS)];
    StartProper();
    TwoArrive();
    OneMisses();
    OneJoins();
    RunAdd(s0, p0, Arrive(0, FIRST));
    RunAdd(s0, p1, Arrive(0, SECOND));
    RunAdd(s0, p2, Probe(0, EVICTS));
    RunAdd(s0, p3, Probe(0, HitReserved));
    assert p3 + [Probe(0, HitReserved)]
        == [Arrive(0, FIRST), Arrive(0, SECOND), Probe(0, EVICTS), Probe(0, HitReserved)];
    StartHolds();
  }

  lemma StartProper()
    ensures Proper(Start(1), []) && Run(Start(1), []) == Start(1)
  {
  }

  lemma StartHolds()
    ensures !Start(1).failed
  {
  }

  lemma RunAdd(s: State, acts: seq<Action>, a: Action)
    requires Shape(s) && Proper(s, acts) && Allows(Run(s, acts), a)
    ensures Proper(s, acts + [a]) && Run(s, acts + [a]) == Apply(Run(s, acts), a)
  {
    hide Apply, Allows, Proper;
    ProperAdd(s, acts, a);
    assert (acts + [a])[..|acts|] == acts;
  }

  // Whoever sends requests asks recieve_rdy first.
  predicate Polite(s: State, acts: seq<Action>)
    requires Shape(s)
    decreases |acts|
  {
    acts == [] ||
    (var before, a := acts[..|acts| - 1], acts[|acts| - 1];
     Polite(s, before) && (a.Arrive? && a.i < |s.ins| ==> |Run(s, before).ins[a.i]| < 64))
  }

  predicate WithinInput(s: State) { forall i :: 0 <= i < |s.ins| ==> |s.ins[i]| <= 64 }

  // Then no input queue ever holds more than in_size requests, which is 64.
  lemma {:induction false} InputsBounded(s: State, acts: seq<Action>)
    requires Shape(s) && WithinInput(s) && Polite(s, acts)
    ensures WithinInput(Run(s, acts))
    decreases |acts|
  {
    hide Apply, WithinInput;
    if acts != [] {
      var before, a := acts[..|acts| - 1], acts[|acts| - 1];
      InputsBounded(s, before);
      StepBounded(Run(s, before), a);
    }
  }

  lemma StepBounded(s: State, a: Action)
    requires Shape(s) && WithinInput(s) && (a.Arrive? && a.i < |s.ins| ==> |s.ins[a.i]| < 64)
    ensures WithinInput(Apply(s, a))
  {
    hide ProbeStep, RespStep;
    if a.Probe? && Enabled(s, a) { ProbeIns(s, a.i, a.o); }
    if a.DramToResp? && Enabled(s, a) { RespIns(s); }
  }

  lemma ProbeIns(s: State, i: nat, o: Outcome)
    requires Shape(s) && Enabled(s, Probe(i, o))
    ensures ProbeStep(s, i, o).ins == if o.ResFail? then s.ins else s.ins[i := s.ins[i][1..]]
  {
    hide Block, Part, Waiters, WriteBack;
  }

  lemma RespIns(s: State)
    requires Shape(s) && Enabled(s, DramToResp)
    ensures RespStep(s).ins == s.ins
  {
  }
}
