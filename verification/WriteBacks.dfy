// What leaves a clause writer is a write. Tokens do not show it: the kind of a
// request plays no part in the pipeline once its clause is finished.
module WriteBacks {
  import opened Forest
  import opened Queues
  import opened Tokens
  import opened Transfers
  import ClauseWriter
  import R = Routing
  import S = System

  ghost predicate OnlyWrites(q: Queues) { forall r :: r in Get(q, KOut) ==> r.kind == WriteClause }

  ghost predicate AllWrites(s: S.System) { forall k :: 0 <= k < |s.ks| ==> OnlyWrites(s.ks[k]) }

  lemma WriterPutsWrites(q: Queues)
    requires OnlyWrites(q)
    ensures OnlyWrites(ClauseWriter.Step(q))
  {
    if Get(q, KIn) != [] {
      var r := Get(q, KIn)[0];
      var w := r.(kind := WriteClause);
      PutWrites(Pop(q, KIn), w);
      PutWrites(Push(Pop(q, KIn), KOut, w), w);
    }
  }

  lemma PutWrites(q: Queues, r: Req)
    requires OnlyWrites(q) && r.kind == WriteClause
    ensures OnlyWrites(Push(q, KOut, r))
  {
  }

  lemma CarryKeepsWrites(s: S.System, r: S.Route, j: nat, k: nat)
    requires S.Enabled(s, S.Carry(r, j)) && k < |s.ks| && OnlyWrites(s.ks[k])
    ensures k < |S.CarryStep(s, r, j).ks| && OnlyWrites(S.CarryStep(s, r, j).ks[k])
  {
    hide S.CarryStep, S.Ready;
    CarryGet(s, r, j, S.K(k), KOut);
  }

  lemma StepKeepsWrites(s: S.System, a: S.Action)
    requires AllWrites(s)
    ensures AllWrites(S.Apply(s, a))
  {
    hide S.CarryStep, S.Watcher.Step, S.Clause.Step, ClauseWriter.Step, S.Ready, OnlyWrites;
    if S.Enabled(s, a) {
      match a
      case WatcherStage(w, st) =>
      case ClauseStage(c, st) =>
      case WriterStage(k) => WriterPutsWrites(s.ks[k]);
      case Carry(r, j) =>
        CarryGet(s, r, j, S.Top, Trail);
        forall k | 0 <= k < |s.ks| ensures OnlyWrites(S.CarryStep(s, r, j).ks[k]) {
          CarryKeepsWrites(s, r, j, k);
        }
    }
  }

  lemma StartWrites(trail: seq<Req>, nw: nat, nc: nat, nk: nat)
    ensures AllWrites(S.Start(trail, nw, nc, nk))
  {
  }

  // In every run, whatever is in the output of a clause writer is a write of a
  // clause, so it is never answered (Routing.RoutedHome).
  lemma OutputsAreWrites(trail: seq<Req>, nw: nat, nc: nat, nk: nat, acts: seq<S.Action>)
    ensures var s := S.Run(S.Start(trail, nw, nc, nk), acts);
            forall k, r :: 0 <= k < |s.ks| && r in Get(s.ks[k], KOut) ==> r.kind.WriteClause?
  {
    hide S.Apply, S.Start;
    AllAreWrites(trail, nw, nc, nk, acts);
  }

  lemma {:induction false} AllAreWrites(trail: seq<Req>, nw: nat, nc: nat, nk: nat, acts: seq<S.Action>)
    ensures AllWrites(S.Run(S.Start(trail, nw, nc, nk), acts))
    decreases |acts|
  {
    hide S.Apply, S.Start, AllWrites;
    if acts == [] {
      StartWrites(trail, nw, nc, nk);
    } else {
      AllAreWrites(trail, nw, nc, nk, acts[..|acts| - 1]);
      StepKeepsWrites(S.Run(S.Start(trail, nw, nc, nk), acts[..|acts| - 1]), acts[|acts| - 1]);
    }
  }
}
