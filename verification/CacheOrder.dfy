// Requests for one block are answered in the order in which they came: the list
// that waits for a block keeps it, and the whole list is released at once.
module CacheOrder {
  import opened Cache
  import opened Forest
  import opened MissTable
  import M = Memory

  ghost predicate Ascending(q: seq<Access>) { forall i, j :: 0 <= i < j < |q| ==> q[i].id < q[j].id }

  ghost predicate AllBefore(q: seq<Access>, p: seq<Access>) {
    forall i, j :: 0 <= i < |q| && 0 <= j < |p| ==> q[i].id < p[j].id
  }

  ghost predicate Under(q: seq<Access>, top: int) { forall i :: 0 <= i < |q| ==> q[i].id < top }

  ghost predicate AllUnder(s: State, top: int) { forall b :: b in s.waiting ==> Under(s.waiting[b], top) }

  // Each queue, and each list that waits, is in order; what waits came before
  // what is still in the queue of its partition; and all ids are below top.
  ghost predicate Ordered(s: State, top: int)
    requires Shape(s)
  {
    && (forall i :: 0 <= i < |s.ins| ==> Ascending(s.ins[i]) && Under(s.ins[i], top))
    && (forall b :: b in s.waiting ==> Ascending(s.waiting[b]))
    && (forall b :: b in s.waiting ==> AllBefore(s.waiting[b], s.ins[Part(b, |s.ins|)]))
  }

  lemma ArriveOrdered(s: State, i: nat, x: Access, top: int)
    requires Shape(s) && i < |s.ins| && Ordered(s, top) && AllUnder(s, top) && x.id == top
    ensures var s' := s.(ins := s.ins[i := s.ins[i] + [x]]); Ordered(s', top + 1) && AllUnder(s', top + 1)
  {
    hide Part;
  }

  // A request that came last joins a list, or goes elsewhere.
  lemma JoinOrdered(s: State, s': State, i: nat, top: int)
    requires Shape(s) && Shape(s') && Ordered(s, top) && AllUnder(s, top) && i < |s.ins| && s.ins[i] != []
    requires Part(Block(s.ins[i][0].addr), |s.ins|) == i && s'.ins == s.ins[i := s.ins[i][1..]]
    requires var x, b := s.ins[i][0], Block(s.ins[i][0].addr);
             s'.waiting == s.waiting || s'.waiting == s.waiting[b := Waiters(s, b) + [x]]
    ensures Ordered(s', top) && AllUnder(s', top)
  {
    hide Part, Block;
    var q := s.ins[i];
    assert forall k :: 0 <= k < |q| - 1 ==> q[1..][k] == q[k + 1];
  }

  lemma ProbeShape(s: State, i: nat, o: Outcome)
    requires Shape(s) && Enabled(s, Probe(i, o)) && !o.ResFail?
    ensures var s', x, b := ProbeStep(s, i, o), s.ins[i][0], Block(s.ins[i][0].addr);
            && Shape(s') && s'.ins == s.ins[i := s.ins[i][1..]]
            && (s'.waiting == s.waiting || s'.waiting == s.waiting[b := Waiters(s, b) + [x]])
  {
    hide Part, Block, Waiters, WriteBack;
  }

  lemma StepOrdered(s: State, h: History, a: Action, top: int)
    requires Shape(s) && Inv(s, h) && Ordered(s, top) && AllUnder(s, top) && Enabled(s, a)
    requires a.Arrive? ==> a.x.id == top
    ensures Ordered(Apply(s, a), top + if a.Arrive? then 1 else 0)
    ensures AllUnder(Apply(s, a), top + if a.Arrive? then 1 else 0)
  {
    hide Part, Block, ProbeStep, RespStep, Flow, Backs, Outstanding, Listed, Reserved, Ordered, AllUnder;
    if a.Arrive? {
      ArriveOrdered(s, a.i, a.x, top);
    } else if a.Probe? {
      if !a.o.ResFail? {
        ProbeShape(s, a.i, a.o);
        JoinOrdered(s, ProbeStep(s, a.i, a.o), a.i, top);
      } else {
        FailAside(s, a.i);
      }
    } else {
      OthersKeep(s, a);
      FewerOrdered(s, Apply(s, a), top);
    }
  }

  // The other actions only take lists out of the table.
  lemma OthersKeep(s: State, a: Action)
    requires Shape(s) && Enabled(s, a) && !a.Arrive? && !a.Probe?
    ensures var s' := Apply(s, a);
            s'.ins == s.ins && forall b :: b in s'.waiting ==> b in s.waiting && s'.waiting[b] == s.waiting[b]
  {
    hide Part;
  }

  lemma FewerOrdered(s: State, s': State, top: int)
    requires Shape(s) && Shape(s') && Ordered(s, top) && AllUnder(s, top) && s'.ins == s.ins
    requires forall b :: b in s'.waiting ==> b in s.waiting && s'.waiting[b] == s.waiting[b]
    ensures Ordered(s', top) && AllUnder(s', top)
  {
    hide Part;
  }

  lemma FailAside(s: State, i: nat)
    requires Shape(s) && Enabled(s, Probe(i, ResFail))
    ensures ProbeStep(s, i, ResFail) == s
  {
  }

  // Each request that comes has a number, one more than the one before it.
  predicate Numbered(s: State, acts: seq<Action>, top: int)
    requires Shape(s)
    decreases |acts|
  {
    if acts == [] then top == 0
    else
      var before, a := acts[..|acts| - 1], acts[|acts| - 1];
      if a.Arrive? && Enabled(Run(s, before), a) then a.x.id == top - 1 && Numbered(s, before, top - 1)
      else Numbered(s, before, top)
  }

  // In every run, the requests that wait for a block are in the order in which
  // they came.
  lemma {:induction false} WaitInOrder(n: nat, acts: seq<Action>, top: int)
    requires n > 0 && Proper(Start(n), acts) && Numbered(Start(n), acts, top)
    ensures Ordered(Run(Start(n), acts), top) && AllUnder(Run(Start(n), acts), top)
    decreases |acts|
  {
    hide Start, Inv, Ordered, AllUnder, Legal, Enabled;
    if acts == [] {
      StartOrdered(n);
    } else {
      hide Apply;
      var before, a := acts[..|acts| - 1], acts[|acts| - 1];
      var s := Run(Start(n), before);
      RunKeeps(n, before);
      WaitInOrder(n, before, if a.Arrive? && Enabled(s, a) then top - 1 else top);
      if Enabled(s, a) {
        StepOrdered(s, Notes(Start(n), before), a, if a.Arrive? then top - 1 else top);
      } else {
        IdleApply(s, a);
      }
    }
  }

  lemma IdleApply(s: State, a: Action)
    requires Shape(s) && !Enabled(s, a)
    ensures Apply(s, a) == s
  {
  }

  lemma StartOrdered(n: nat)
    requires n > 0
    ensures Ordered(Start(n), 0) && AllUnder(Start(n), 0)
  {
  }

  // So the responses for a block enter the delay queue in that order.
  lemma ReleasedInOrder(n: nat, acts: seq<Action>, top: int)
    requires n > 0 && Proper(Start(n), acts) && Numbered(Start(n), acts, top)
    requires Enabled(Run(Start(n), acts), DramToResp)
    ensures var s := Run(Start(n), acts);
            var p, s' := Part(s.respQ[0], n), Apply(s, DramToResp);
            && p < |s.delays| && p < |s'.delays| && |s'.delays[p]| >= |s.delays[p]|
            && s'.delays[p][..|s.delays[p]|] == s.delays[p]
            && Ascending(Untimed(s'.delays[p][|s.delays[p]|..]))
  {
    hide Start, Inv, Part, Numbered;
    WaitInOrder(n, acts, top);
    RunKeeps(n, acts);
    InvRespIn(Run(Start(n), acts), Notes(Start(n), acts));
    Released(Run(Start(n), acts));
  }

  lemma InvRespIn(s: State, h: History)
    requires Shape(s) && Inv(s, h) && s.respQ != []
    ensures s.respQ[0] in s.waiting
  {
    hide Flow, Backs, Table;
    RespListed(s);
  }

  lemma Released(s: State)
    requires Shape(s) && Enabled(s, DramToResp) && s.respQ[0] in s.waiting && Ascending(s.waiting[s.respQ[0]])
    ensures var p, s' := Part(s.respQ[0], |s.delays|), Apply(s, DramToResp);
            && |s'.delays[p]| >= |s.delays[p]| && s'.delays[p][..|s.delays[p]|] == s.delays[p]
            && Ascending(Untimed(s'.delays[p][|s.delays[p]|..]))
  {
    hide Part;
    var b := s.respQ[0];
    var p, s' := Part(b, |s.delays|), Apply(s, DramToResp);
    StampUntimed(s.now, s.waiting[b]);
    assert s'.delays[p][|s.delays[p]|..] == Stamp(s.now, s.waiting[b]);
  }
}
