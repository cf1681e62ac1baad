// The cycle of a unit, all its stages in their order, is a run of the system:
// what holds along every run holds cycle by cycle.
module Cycles {
  import opened Queues
  import opened System
  import opened Tokens
  import Watcher
  import Clause

  const WATCHER_STAGES: seq<Watcher.Stage> :=
    [Watcher.MetaToMem, Watcher.ValueToMem, Watcher.ProcessToOut,
     Watcher.ReadToMem, Watcher.InToRead, Watcher.RespToInside]

  const CLAUSE_STAGES: seq<Clause.Stage> :=
    [Clause.ProcessToOut, Clause.ValueToMem, Clause.DataToMem, Clause.MemIn, Clause.TaskToData]

  // Some stages of one unit, in order: as actions of the system, and on its own.
  function WatcherActs(w: nat, sts: seq<Watcher.Stage>): seq<Action> {
    seq(|sts|, i requires 0 <= i < |sts| => WatcherStage(w, sts[i]))
  }

  function WatcherSteps(sts: seq<Watcher.Stage>, u: Watcher.State): Watcher.State {
    if sts == [] then u else Watcher.Step(sts[|sts| - 1], WatcherSteps(sts[..|sts| - 1], u))
  }

  function ClauseActs(c: nat, sts: seq<Clause.Stage>): seq<Action> {
    seq(|sts|, i requires 0 <= i < |sts| => ClauseStage(c, sts[i]))
  }

  function ClauseSteps(sts: seq<Clause.Stage>, u: Clause.State): Clause.State {
    if sts == [] then u else Clause.Step(sts[|sts| - 1], ClauseSteps(sts[..|sts| - 1], u))
  }

  lemma WatcherApplies(s: System, w: nat, st: Watcher.Stage)
    requires w < |s.ws|
    ensures Apply(s, WatcherStage(w, st)) == s.(ws := s.ws[w := Watcher.Step(st, s.ws[w])])
  {
    assert s.ws[w := s.ws[w]] == s.ws;
  }

  lemma ClauseApplies(s: System, c: nat, st: Clause.Stage)
    requires c < |s.cs|
    ensures Apply(s, ClauseStage(c, st)) == s.(cs := s.cs[c := Clause.Step(st, s.cs[c])])
  {
    assert s.cs[c := s.cs[c]] == s.cs;
  }

  lemma {:induction false} WatcherRuns(s: System, w: nat, sts: seq<Watcher.Stage>)
    requires w < |s.ws|
    ensures Run(s, WatcherActs(w, sts)) == s.(ws := s.ws[w := WatcherSteps(sts, s.ws[w])])
    decreases |sts|
  {
    hide Apply, Watcher.Step;
    if sts == [] {
      assert s.ws[w := s.ws[w]] == s.ws;
    } else {
      var n := |sts| - 1;
      WatcherRuns(s, w, sts[..n]);
      assert WatcherActs(w, sts)[..n] == WatcherActs(w, sts[..n]);
      WatcherApplies(Run(s, WatcherActs(w, sts[..n])), w, sts[n]);
    }
  }

  lemma {:induction false} ClauseRuns(s: System, c: nat, sts: seq<Clause.Stage>)
    requires c < |s.cs|
    ensures Run(s, ClauseActs(c, sts)) == s.(cs := s.cs[c := ClauseSteps(sts, s.cs[c])])
    decreases |sts|
  {
    hide Apply, Clause.Step;
    if sts == [] {
      assert s.cs[c := s.cs[c]] == s.cs;
    } else {
      var n := |sts| - 1;
      ClauseRuns(s, c, sts[..n]);
      assert ClauseActs(c, sts)[..n] == ClauseActs(c, sts[..n]);
      ClauseApplies(Run(s, ClauseActs(c, sts[..n])), c, sts[n]);
    }
  }

  lemma WatcherCycleRuns(s: System, w: nat)
    requires w < |s.ws|
    ensures Run(s, WatcherActs(w, WATCHER_STAGES)) == s.(ws := s.ws[w := Watcher.Cycle(s.ws[w])])
  {
    hide Run, Watcher.Step;
    WatcherRuns(s, w, WATCHER_STAGES);
    var t := WATCHER_STAGES;
    assert t[..6] == t && t[..6][..5] == t[..5] && t[..5][..4] == t[..4] && t[..4][..3] == t[..3]
        && t[..3][..2] == t[..2] && t[..2][..1] == t[..1] && t[..1][..0] == [];
    var u := s.ws[w];
    assert WatcherSteps(t[..1], u) == Watcher.Step(t[0], u);
    assert WatcherSteps(t[..2], u) == Watcher.Step(t[1], WatcherSteps(t[..1], u));
    assert WatcherSteps(t[..3], u) == Watcher.Step(t[2], WatcherSteps(t[..2], u));
    assert WatcherSteps(t[..4], u) == Watcher.Step(t[3], WatcherSteps(t[..3], u));
    assert WatcherSteps(t[..5], u) == Watcher.Step(t[4], WatcherSteps(t[..4], u));
    assert WatcherSteps(t[..6], u) == Watcher.Step(t[5], WatcherSteps(t[..5], u));
  }

  lemma ClauseCycleRuns(s: System, c: nat)
    requires c < |s.cs|
    ensures Run(s, ClauseActs(c, CLAUSE_STAGES)) == s.(cs := s.cs[c := Clause.Cycle(s.cs[c])])
  {
    hide Run, Clause.Step;
    ClauseRuns(s, c, CLAUSE_STAGES);
    var t := CLAUSE_STAGES;
    assert t[..5] == t && t[..5][..4] == t[..4] && t[..4][..3] == t[..3]
        && t[..3][..2] == t[..2] && t[..2][..1] == t[..1] && t[..1][..0] == [];
    var u := s.cs[c];
    assert ClauseSteps(t[..1], u) == Clause.Step(t[0], u);
    assert ClauseSteps(t[..2], u) == Clause.Step(t[1], ClauseSteps(t[..1], u));
    assert ClauseSteps(t[..3], u) == Clause.Step(t[2], ClauseSteps(t[..2], u));
    assert ClauseSteps(t[..4], u) == Clause.Step(t[3], ClauseSteps(t[..3], u));
    assert ClauseSteps(t[..5], u) == Clause.Step(t[4], ClauseSteps(t[..4], u));
  }

  // The reads inside the memory stand aside while a unit cycles.
  function WithReads(u: Watcher.State, reads': seq<Req>): Watcher.State { u.(q := u.q[WMem := reads']) }

  function WithClauseReads(u: Clause.State, reads': seq<Req>): Clause.State { u.(q := u.q[CMem := reads']) }

  lemma WatcherPutsAside(st: Watcher.Stage, r: Req)
    ensures Avoids(Watcher.Puts(st, r), WMem)
  {
  }

  lemma ClausePutsAside(st: Clause.Stage, u: Clause.State, r: Req)
    ensures Avoids(Clause.Puts(st, u, r), CMem)
  {
  }

  lemma WatcherStepAside(st: Watcher.Stage, u: Watcher.State, reads': seq<Req>)
    ensures Watcher.Step(st, WithReads(u, reads')) == WithReads(Watcher.Step(st, u), reads')
  {
    hide PutAll, Watcher.Puts;
    var p := Watcher.Source(st);
    if Get(u.q, p) != [] {
      var r := Get(u.q, p)[0];
      WatcherPutsAside(st, r);
      PopAside(u.q, p, WMem, reads');
      PutAllAside(Pop(u.q, p), Watcher.Puts(st, r), WMem, reads');
    }
  }

  lemma ClauseStepAside(st: Clause.Stage, u: Clause.State, reads': seq<Req>)
    ensures Clause.Step(st, WithClauseReads(u, reads')) == WithClauseReads(Clause.Step(st, u), reads')
  {
    hide PutAll, Clause.Puts;
    var p := Clause.Source(st);
    if Get(u.q, p) != [] {
      var r := Get(u.q, p)[0];
      ClausePutsAside(st, u, r);
      PutsSame(st, u, reads', r);
      PopAside(u.q, p, CMem, reads');
      PutAllAside(Pop(u.q, p), Clause.Puts(st, u, r), CMem, reads');
    }
  }

  lemma PutsSame(st: Clause.Stage, u: Clause.State, reads': seq<Req>, r: Req)
    ensures Clause.Puts(st, WithClauseReads(u, reads'), r) == Clause.Puts(st, u, r)
  {
  }

  lemma WatcherCycleAside(u: Watcher.State, reads': seq<Req>)
    ensures Watcher.Cycle(WithReads(u, reads')) == WithReads(Watcher.Cycle(u), reads')
  {
    hide Watcher.Step, WithReads;
    var u1 := Watcher.Step(Watcher.MetaToMem, u);
    var u2 := Watcher.Step(Watcher.ValueToMem, u1);
    var u3 := Watcher.Step(Watcher.ProcessToOut, u2);
    var u4 := Watcher.Step(Watcher.ReadToMem, u3);
    var u5 := Watcher.Step(Watcher.InToRead, u4);
    WatcherStepAside(Watcher.MetaToMem, u, reads');
    WatcherStepAside(Watcher.ValueToMem, u1, reads');
    WatcherStepAside(Watcher.ProcessToOut, u2, reads');
    WatcherStepAside(Watcher.ReadToMem, u3, reads');
    WatcherStepAside(Watcher.InToRead, u4, reads');
    WatcherStepAside(Watcher.RespToInside, u5, reads');
  }

  lemma ClauseCycleAside(u: Clause.State, reads': seq<Req>)
    ensures Clause.Cycle(WithClauseReads(u, reads')) == WithClauseReads(Clause.Cycle(u), reads')
  {
    hide Clause.Step, WithClauseReads;
    var u1 := Clause.Step(Clause.ProcessToOut, u);
    var u2 := Clause.Step(Clause.ValueToMem, u1);
    var u3 := Clause.Step(Clause.DataToMem, u2);
    var u4 := Clause.Step(Clause.MemIn, u3);
    ClauseStepAside(Clause.ProcessToOut, u, reads');
    ClauseStepAside(Clause.ValueToMem, u1, reads');
    ClauseStepAside(Clause.DataToMem, u2, reads');
    ClauseStepAside(Clause.MemIn, u3, reads');
    ClauseStepAside(Clause.TaskToData, u4, reads');
  }
}
