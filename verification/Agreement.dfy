// The pipelined accelerator and the sequential reference do the same work.
module Agreement {
  import opened Bags
  import opened Bill
  import opened Conservation
  import opened Forest
  import opened Queues
  import opened Schedules
  import opened System
  import opened Tokens
  import Seq

  // What both runs are compared on: watchers visited, clauses read and
  // assignments generated.
  predicate Compared(p: Place) { p.WProc? || p.WSend? || p.CGen? }

  // The sequential run asks is_genereated before get_generated, the pipeline
  // does not. They agree on a list when the flag is set wherever an assignment
  // is generated.
  ghost predicate Flagged(a: Assign)
    decreases Height(a), 1, 0
  {
    FlaggedFrom(a, 0)
  }

  ghost predicate FlaggedFrom(a: Assign, w: nat)
    decreases Height(a), 0, Size(a) - w
  {
    ChildLower(a, w);
    w < Size(a) ==>
      && (ReadsClause(a, w) && Child(a, w).Implies? ==> a.watchers[w].flagged && Flagged(Child(a, w).child))
      && FlaggedFrom(a, w + 1)
  }

  ghost predicate AllFlagged(trail: seq<Req>) { forall r :: r in trail ==> Flagged(r.a) }

  // f weighs nothing but what is compared, and no token more than once.
  ghost predicate Compares(f: Token -> nat) { forall t: Token :: f(t) <= if Compared(t.p) then 1 else 0 }

  lemma {:induction false} NoChunks(f: Token -> nat, a: Assign, k: nat)
    requires Compares(f)
    ensures ListChunks(f, a, k) == 0
    decreases Size(a) - k
  {
    if k < Size(a) { NoChunks(f, a, k + CHUNK); }
  }

  lemma {:induction false} NoValues(f: Token -> nat, a: Assign, k: nat)
    requires Compares(f)
    ensures ListValues(f, a, k) == 0
    decreases Size(a) - k
  {
    if k < Size(a) { NoValues(f, a, k + 1); }
  }

  lemma {:induction false} NoClauseChunks(f: Token -> nat, a: Assign, w: nat, c: nat)
    requires Compares(f)
    ensures ClauseChunks(f, a, w, c) == 0
    decreases Literals(a, w) - c
  {
    if c + CHUNK < Literals(a, w) { NoClauseChunks(f, a, w, c + CHUNK); }
  }

  lemma {:induction false} NoClauseValues(f: Token -> nat, a: Assign, w: nat, c: nat)
    requires Compares(f)
    ensures ClauseValues(f, a, w, c) == 0
    decreases Literals(a, w) - c
  {
    if c + 1 < Literals(a, w) { NoClauseValues(f, a, w, c + 1); }
  }

  lemma {:induction false} NoClauseSteps(f: Token -> nat, a: Assign, w: nat, c: nat)
    requires Compares(f)
    ensures ClauseSteps(f, a, w, c) == 0
    decreases Literals(a, w) - c
  {
    if c + 1 < Literals(a, w) { NoClauseSteps(f, a, w, c + 1); }
  }

  lemma ClauseCompared(f: Token -> nat, a: Assign, w: nat)
    requires Compares(f)
    ensures ClauseBill(f, a, w) == f(At(WSend, a, w, 0)) + ImpliedBill(f, a, w)
  {
    hide ClauseChunks, ClauseValues, ClauseSteps, ImpliedBill;
    NoClauseChunks(f, a, w, 0);
    NoClauseValues(f, a, w, 0);
    NoClauseSteps(f, a, w, 0);
  }

  lemma ListCompared(f: Token -> nat, a: Assign)
    requires Compares(f)
    ensures ListBill(f, a) == WatchersBill(f, a, 0)
  {
    hide ListChunks, ListValues;
    NoChunks(f, a, 0);
    NoValues(f, a, 0);
  }

  // The sequential weight of one watcher.
  lemma WatcherSeen(f: Token -> nat, a: Assign, w: nat)
    ensures Total(f, Seq.OfWatcher(a, w).seen)
         == f(At(WProc, a, w, 0))
            + (if ReadsClause(a, w) then f(At(WSend, a, w, 0)) else 0)
            + (if Seq.Generates(a, w) then f(At(CGen, Child(a, w).child, 0, 0)) else 0)
  {
    hide Total;
    var x, y := At(WProc, a, w, 0), At(WSend, a, w, 0);
    TotalOne(f, x);
    TotalTwo(f, x, y);
    if Seq.Generates(a, w) {
      TotalAdd(f, multiset([x, y]), At(CGen, Child(a, w).child, 0, 0));
      assert Seq.OfWatcher(a, w).seen == multiset([x, y]) + multiset{At(CGen, Child(a, w).child, 0, 0)};
    } else if ReadsClause(a, w) {
      assert Seq.OfWatcher(a, w).seen == multiset([x, y]);
    } else {
      assert Seq.OfWatcher(a, w).seen == multiset([x]);
    }
  }

  ghost predicate Ones(f: Token -> nat) { forall t: Token :: Compared(t.p) ==> f(t) == 1 }

  // The sequential run never sees more than the pipeline does. It sees the same
  // where the flags are right, and less where one is missing.
  ghost predicate Compare(f: Token -> nat, sequential: nat, bill: nat, flagged: bool)
  {
    sequential <= bill && (flagged ==> sequential == bill) && (!flagged && Ones(f) ==> sequential < bill)
  }

  lemma {:induction false} WatchersCompare(f: Token -> nat, a: Assign, w: nat)
    requires Compares(f)
    ensures Compare(f, Total(f, Seq.OfWatchers(a, w).seen), WatchersBill(f, a, w), FlaggedFrom(a, w))
    decreases Height(a), 0, Size(a) - w
  {
    hide Total, ClauseBill, ListBill, Height, Seq.OfAssign, Flagged, Seq.OfWatcher;
    if w >= Size(a) {
      TotalNone(f);
    } else {
      var own, rest := Seq.OfWatcher(a, w), Seq.OfWatchers(a, w + 1);
      var g := if Seq.Generates(a, w) then Seq.OfAssign(Child(a, w).child) else Seq.NOTHING;
      WatchersCompare(f, a, w + 1);
      WatcherSeen(f, a, w);
      ClauseCompared(f, a, w);
      TotalUnion(f, own.seen, g.seen);
      TotalUnion(f, own.seen + g.seen, rest.seen);
      TotalNone(f);
      if ReadsClause(a, w) && Child(a, w).Implies? {
        ChildLower(a, w);
        AssignCompare(f, Child(a, w).child);
      }
    }
  }

  lemma {:induction false} AssignCompare(f: Token -> nat, a: Assign)
    requires Compares(f)
    ensures Compare(f, Total(f, Seq.OfAssign(a).seen), ListBill(f, a), Flagged(a))
    decreases Height(a), 1, 0
  {
    hide Total, ListBill, WatchersBill, Height, Seq.OfWatchers, FlaggedFrom, Compare;
    WatchersCompare(f, a, 0);
    ListCompared(f, a);
    NoWatchers(a);
    assert multiset{} + Seq.OfWatchers(a, 0).seen == Seq.OfWatchers(a, 0).seen;
  }

  lemma NoWatchers(a: Assign)
    ensures Size(a) == 0 ==> Seq.OfWatchers(a, 0) == Seq.NOTHING
  {
  }

  lemma {:induction false} TrailCompare(f: Token -> nat, trail: seq<Req>)
    requires Compares(f)
    ensures Compare(f, Total(f, Seq.OfQueue(trail).seen), Total(f, ExpandAll(Bag(Trail, trail))), AllFlagged(trail))
  {
    hide Total, Gather, Bag, Expand, Seq.OfAssign, Flagged, Succ;
    if trail == [] {
      BagNone(Trail);
      GatherNone(Expand);
      TotalNone(f);
    } else {
      var r, rest := trail[0], trail[1..];
      TrailCompare(f, rest);
      AssignCompare(f, r.a);
      CostIsBill(f, r.a);
      TrailSplit(trail);
      TotalUnion(f, Expand(At(Trail, r.a, 0, 0)), ExpandAll(Bag(Trail, rest)));
      TotalUnion(f, Seq.OfAssign(r.a).seen, Seq.OfQueue(rest).seen);
      assert AllFlagged(trail) <==> Flagged(r.a) && AllFlagged(rest);
    }
  }

  function Every(): Token -> nat { (t: Token) => if Compared(t.p) then 1 else 0 }

  // A drained pipelined run without fall-through and the sequential run of the
  // same trail visit the same watchers, read the same clauses and generate the
  // same assignments, each as often, if and only if every flag is set.
  lemma ParallelAgrees(trail: seq<Req>, nw: nat, nc: nat, nk: nat, acts: seq<Action>)
    requires Config(Run(Start(trail, nw, nc, nk), acts)) == multiset{}
    requires Books(Start(trail, nw, nc, nk), acts).falls == 0
    ensures var log, seen := Books(Start(trail, nw, nc, nk), acts).log, Seq.OfQueue(trail).seen;
            (forall x: Token :: Compared(x.p) ==> log[x] == seen[x]) <==> AllFlagged(trail)
  {
    hide Total, Config, Expand, Bag, Seq.OfQueue, AllFlagged;
    var s := Start(trail, nw, nc, nk);
    var log, seen := Books(s, acts).log, Seq.OfQueue(trail).seen;
    StartConfig(trail, nw, nc, nk);
    DrainedLog(s, acts);
    assert log == ExpandAll(Bag(Trail, trail));
    if AllFlagged(trail) {
      forall x: Token | Compared(x.p) ensures log[x] == seen[x] {
        TrailCompare(Only(x), trail);
        TotalOnly(x, log);
        TotalOnly(x, seen);
      }
    } else {
      TrailCompare(Every(), trail);
      if forall x: Token :: Compared(x.p) ==> log[x] == seen[x] {
        TotalSupport(Every(), log, seen);
        assert false;
      }
    }
  }
}
