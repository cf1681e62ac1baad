// A cycle of a unit runs each of its stages once, and the later ones in the
// pipeline first: every stage finds in its queue what was there when the cycle
// began, so no request passes two stages in one cycle.
module OneStage {
  import opened Cycles
  import opened Queues
  import opened Tokens
  import Watcher
  import Clause

  lemma WatcherStageOnce(st: Watcher.Stage)
    ensures multiset(WATCHER_STAGES)[st] == 1
  {
    var all := multiset{Watcher.MetaToMem, Watcher.ValueToMem, Watcher.ProcessToOut,
                        Watcher.ReadToMem, Watcher.InToRead, Watcher.RespToInside};
    assert multiset(WATCHER_STAGES) == all;
    match st
    case MetaToMem =>
    case ValueToMem =>
    case ProcessToOut =>
    case ReadToMem =>
    case InToRead =>
    case RespToInside =>
  }

  lemma ClauseStageOnce(st: Clause.Stage)
    ensures multiset(CLAUSE_STAGES)[st] == 1
  {
    var all := multiset{Clause.ProcessToOut, Clause.ValueToMem, Clause.DataToMem, Clause.MemIn, Clause.TaskToData};
    assert multiset(CLAUSE_STAGES) == all;
    match st
    case ProcessToOut =>
    case ValueToMem =>
    case DataToMem =>
    case MemIn =>
    case TaskToData =>
  }

  // Nothing that stage i puts goes to the queue of a later one.
  lemma WatcherPutsAhead(i: nat, j: nat, r: Req)
    requires i < j < |WATCHER_STAGES|
    ensures Watcher.Source(WATCHER_STAGES[i]) != Watcher.Source(WATCHER_STAGES[j])
    ensures Avoids(Watcher.Puts(WATCHER_STAGES[i], r), Watcher.Source(WATCHER_STAGES[j]))
  {
  }

  lemma ClausePutsAhead(i: nat, j: nat, u: Clause.State, r: Req)
    requires i < j < |CLAUSE_STAGES|
    ensures Clause.Source(CLAUSE_STAGES[i]) != Clause.Source(CLAUSE_STAGES[j])
    ensures Avoids(Clause.Puts(CLAUSE_STAGES[i], u, r), Clause.Source(CLAUSE_STAGES[j]))
  {
  }

  lemma TakeLeaves(q: Queues, p: Place, puts: seq<Put>, p': Place)
    requires Get(q, p) != [] && p != p' && Avoids(puts, p')
    ensures Get(PutAll(Pop(q, p), puts), p') == Get(q, p')
  {
  }

  lemma {:induction false} WatcherLeaves(u: Watcher.State, i: nat, j: nat)
    requires i <= j < |WATCHER_STAGES|
    ensures var p := Watcher.Source(WATCHER_STAGES[j]);
            Get(WatcherSteps(WATCHER_STAGES[..i], u).q, p) == Get(u.q, p)
    decreases i
  {
    hide PutAll, Watcher.Puts, Avoids;
    if i > 0 {
      var sts := WATCHER_STAGES[..i];
      WatcherLeaves(u, i - 1, j);
      assert sts[..i - 1] == WATCHER_STAGES[..i - 1] && sts[i - 1] == WATCHER_STAGES[i - 1];
      var v, st := WatcherSteps(WATCHER_STAGES[..i - 1], u), WATCHER_STAGES[i - 1];
      if Get(v.q, Watcher.Source(st)) != [] {
        var r := Get(v.q, Watcher.Source(st))[0];
        WatcherPutsAhead(i - 1, j, r);
        TakeLeaves(v.q, Watcher.Source(st), Watcher.Puts(st, r), Watcher.Source(WATCHER_STAGES[j]));
      }
    }
  }

  lemma {:induction false} ClauseLeaves(u: Clause.State, i: nat, j: nat)
    requires i <= j < |CLAUSE_STAGES|
    ensures var p := Clause.Source(CLAUSE_STAGES[j]);
            Get(ClauseSteps(CLAUSE_STAGES[..i], u).q, p) == Get(u.q, p)
    decreases i
  {
    hide PutAll, Clause.Puts, Avoids, Clause.MemBranch;
    if i > 0 {
      var sts := CLAUSE_STAGES[..i];
      ClauseLeaves(u, i - 1, j);
      assert sts[..i - 1] == CLAUSE_STAGES[..i - 1] && sts[i - 1] == CLAUSE_STAGES[i - 1];
      var v, st := ClauseSteps(CLAUSE_STAGES[..i - 1], u), CLAUSE_STAGES[i - 1];
      if !Clause.Idle(st, v) {
        var r := Get(v.q, Clause.Source(st))[0];
        ClausePutsAhead(i - 1, j, v, r);
        TakeLeaves(v.q, Clause.Source(st), Clause.Puts(st, v, r), Clause.Source(CLAUSE_STAGES[j]));
      }
    }
  }

  // When the turn of stage i of a cycle comes, its queue is as it was when the
  // cycle began.
  lemma WatcherStageAlone(u: Watcher.State, i: nat)
    requires i < |WATCHER_STAGES|
    ensures var p := Watcher.Source(WATCHER_STAGES[i]);
            Get(WatcherSteps(WATCHER_STAGES[..i], u).q, p) == Get(u.q, p)
  {
    WatcherLeaves(u, i, i);
  }

  lemma ClauseStageAlone(u: Clause.State, i: nat)
    requires i < |CLAUSE_STAGES|
    ensures var p := Clause.Source(CLAUSE_STAGES[i]);
            Get(ClauseSteps(CLAUSE_STAGES[..i], u).q, p) == Get(u.q, p)
  {
    ClauseLeaves(u, i, i);
  }
}
