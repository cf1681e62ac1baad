// The asserts and throws of the pipeline, over whole runs.
module Asserts {
  import opened Bags
  import opened Conservation
  import opened Counters
  import opened Forest
  import opened Queues
  import opened Schedules
  import opened System
  import opened Tokens

  // What the sources assert of a request where they take it: the list is not
  // empty, the response is one of a watcher, the list writer does not throw,
  // and a finished clause stands at its last literal. The last holds for every
  // clause but an empty one.
  predicate AssertsAt(p: Place, r: Req)
  {
    match p
    case WValue => Size(r.a) != 0
    case WProc => Size(r.a) > 0 && r.w < Size(r.a)
    case WResp => WatcherRead(r.kind)
    case WList => Size(r.a) != 0
    case CWrite => r.w < Size(r.a) && (r.c + 1 == Literals(r.a, r.w) <==> Literals(r.a, r.w) > 0)
    case KIn => r.w < Size(r.a) && (r.c + 1 == Literals(r.a, r.w) <==> Literals(r.a, r.w) > 0)
    case _ => true
  }

  lemma WellFormedAsserts(p: Place, r: Req)
    requires WellFormed(Tok(p, r))
    ensures AssertsAt(p, r)
  {
  }

  lemma EntryIsHeld(s: System, u: Where, p: Place, j: nat)
    requires Exists(s, u) && j < |Get(QueuesOf(s, u), p)|
    ensures Tok(p, Get(QueuesOf(s, u), p)[j]) in Config(s)
  {
    hide Held, Config, SameBut;
    var q := QueuesOf(s, u);
    DropHeld(q, p, j);
    WithQueuesSame(s, u, q);
    ConfigUpdate(s, u, WithQueues(s, u, q));
  }

  // In every state of every run from a trail, for every entry of every queue;
  // and no counter of a watcher or clause unit is ever negative.
  lemma AssertsHold(trail: seq<Req>, nw: nat, nc: nat, nk: nat, acts: seq<Action>)
    ensures var s := Run(Start(trail, nw, nc, nk), acts);
            && (forall u, p, j :: Exists(s, u) && 0 <= j < |Get(QueuesOf(s, u), p)| ==>
                  AssertsAt(p, Get(QueuesOf(s, u), p)[j]))
            && (forall i :: 0 <= i < |s.ws| ==>
                  s.ws[i].inflight >= 0 && s.ws[i].outData >= 0 && s.ws[i].outValue >= 0 && !s.ws[i].thrown)
            && (forall i :: 0 <= i < |s.cs| ==> s.cs[i].inflight >= 0 && s.cs[i].ongoing >= 0)
  {
    hide Held, Total, Config, Start, Run, AssertsAt, WellFormed, Exists, QueuesOf;
    var s := Run(Start(trail, nw, nc, nk), acts);
    StartConfig(trail, nw, nc, nk);
    StartCounts(trail, nw, nc, nk);
    RunCounts(Start(trail, nw, nc, nk), acts);
    forall u, p, j: nat | Exists(s, u) && j < |Get(QueuesOf(s, u), p)|
      ensures AssertsAt(p, Get(QueuesOf(s, u), p)[j])
    {
      EntryIsHeld(s, u, p, j);
      WellFormedAsserts(p, Get(QueuesOf(s, u), p)[j]);
    }
  }
}
