// What one assignment costs, written down without any queue: chunk by chunk,
// watcher by watcher, clause by clause. f weighs each token; the bill of an
// assignment is the total weight of everything its trail entry will cause.
module Bill {
  import opened Bags
  import opened Forest
  import opened Tokens

  ghost function Cost(f: Token -> nat, t: Token): nat { Total(f, Expand(t)) }

  // A read on its way out, inside the memory, and answered.
  ghost function Read(f: Token -> nat, x: Token): nat
    requires x.p.WOut? || x.p.COut?
  {
    f(x) + f(Inside(x)) + f(Answered(x))
  }

  ghost function ListChunks(f: Token -> nat, a: Assign, k: nat): nat
    decreases Size(a) - k
  {
    if k >= Size(a) then 0
    else f(At(WRead, a, k, 0)) + Read(f, Token(WOut, ReadWatcherData, a, k, 0)) + ListChunks(f, a, k + CHUNK)
  }

  ghost function ListValues(f: Token -> nat, a: Assign, k: nat): nat
    decreases Size(a) - k
  {
    if k >= Size(a) then 0
    else f(At(WValue, a, k, 0)) + Read(f, Token(WOut, ReadWatcherValue, a, k, 0)) + ListValues(f, a, k + 1)
  }

  ghost function ClauseChunks(f: Token -> nat, a: Assign, w: nat, c: nat): nat
    decreases Literals(a, w) - c
  {
    f(At(CData, a, w, c)) + Read(f, Token(COut, ReadClauseData, a, w, c))
    + if c + CHUNK < Literals(a, w) then ClauseChunks(f, a, w, c + CHUNK) else 0
  }

  ghost function ClauseValues(f: Token -> nat, a: Assign, w: nat, c: nat): nat
    decreases Literals(a, w) - c
  {
    f(At(CValue, a, w, c)) + Read(f, Token(COut, ReadClauseValue, a, w, c))
    + if c + 1 < Literals(a, w) then ClauseValues(f, a, w, c + 1) else 0
  }

  ghost function ClauseSteps(f: Token -> nat, a: Assign, w: nat, c: nat): nat
    decreases Literals(a, w) - c
  {
    f(At(CProc, a, w, c)) + if c + 1 < Literals(a, w) then ClauseSteps(f, a, w, c + 1) else 0
  }

  // Where the cursor of a finished clause stands.
  function LastLiteral(m: nat): nat { if m == 0 then 0 else m - 1 }

  ghost function ClauseWrites(f: Token -> nat, a: Assign, w: nat): nat
  {
    var c := LastLiteral(Literals(a, w));
    f(At(CWrite, a, w, c)) + f(At(KIn, a, w, c))
    + (if Literals(a, w) <= CHUNK then 1 else 2) * f(At(KOut, a, w, c))
  }

  ghost function ClauseBill(f: Token -> nat, a: Assign, w: nat): nat
    decreases Height(a), 1, 0
  {
    f(At(WSend, a, w, 0)) + f(At(CNet, a, w, 0)) + f(At(CTask, a, w, 0))
    + ClauseChunks(f, a, w, 0) + ClauseValues(f, a, w, 0) + ClauseSteps(f, a, w, 0)
    + ClauseWrites(f, a, w)
    + ImpliedBill(f, a, w)
  }

  ghost function ImpliedBill(f: Token -> nat, a: Assign, w: nat): nat
    decreases Height(a), 0, 0
  {
    ChildLower(a, w);
    match Child(a, w)
    case Null => 0
    case Implies(b) => f(At(CGen, b, 0, 0)) + ListBill(f, b)
  }

  ghost function WatchersBill(f: Token -> nat, a: Assign, k: nat): nat
    decreases Height(a), 2, Size(a) - k
  {
    if k >= Size(a) then 0
    else f(At(WProc, a, k, 0)) + f(At(WList, a, k, 0))
         + (if ReadsClause(a, k) then ClauseBill(f, a, k) else 0)
         + WatchersBill(f, a, k + 1)
  }

  ghost function ListBill(f: Token -> nat, a: Assign): nat
    decreases Height(a), 3, 0
  {
    f(At(Trail, a, 0, 0)) + f(At(WTask, a, 0, 0)) + f(At(WMeta, a, 0, 0))
    + Read(f, Token(WOut, ReadWatcherMetaData, a, 0, 0))
    + if Size(a) == 0 then f(At(WRead, a, 0, 0))
      else ListChunks(f, a, 0) + ListValues(f, a, 0) + WatchersBill(f, a, 0)
  }

  // Costs unfold along Succ.
  lemma CostNone(f: Token -> nat, t: Token)
    requires Succ(t) == []
    ensures Cost(f, t) == f(t)
  {
    hide Total, Expand, Succ;
    ExpandSucc(t);
    GatherNone(Expand);
    assert Expand(t) == multiset([t]);
    TotalOne(f, t);
  }

  lemma CostOne(f: Token -> nat, t: Token, x: Token)
    requires Succ(t) == [x]
    ensures Cost(f, t) == f(t) + Cost(f, x)
  {
    hide Total, Expand, Succ;
    ExpandOne(t, x);
    TotalAdd(f, Expand(x), t);
    assert Expand(t) == Expand(x) + multiset{t};
  }

  lemma CostTwo(f: Token -> nat, t: Token, x: Token, y: Token)
    requires Succ(t) == [x, y]
    ensures Cost(f, t) == f(t) + Cost(f, x) + Cost(f, y)
  {
    hide Total, Expand, Succ;
    ExpandTwo(t, x, y);
    TotalUnion(f, Expand(x), Expand(y));
    TotalAdd(f, Expand(x) + Expand(y), t);
    assert Expand(t) == (Expand(x) + Expand(y)) + multiset{t};
  }

  lemma CostThree(f: Token -> nat, t: Token, x: Token, y: Token, z: Token)
    requires Succ(t) == [x, y, z]
    ensures Cost(f, t) == f(t) + Cost(f, x) + Cost(f, y) + Cost(f, z)
  {
    hide Total, Expand, Succ;
    ExpandSucc(t);
    GatherThree(Expand, x, y, z);
    TotalUnion(f, Expand(x), Expand(y));
    TotalUnion(f, Expand(x) + Expand(y), Expand(z));
    TotalAdd(f, Expand(x) + Expand(y) + Expand(z), t);
    assert Expand(t) == (Expand(x) + Expand(y) + Expand(z)) + multiset{t};
  }

  lemma CostRead(f: Token -> nat, x: Token)
    requires x.p.WOut? || x.p.COut?
    ensures Cost(f, x) == f(x) + f(Inside(x)) + Cost(f, Answered(x))
  {
    hide Cost, Succ, Height, Inside, Answered;
    ReadSucc(x);
    CostOne(f, x, Inside(x));
    CostOne(f, Inside(x), Answered(x));
  }

  lemma ListChunksSucc(a: Assign, k: nat)
    requires k < Size(a)
    ensures var t, x := At(WRead, a, k, 0), Token(WOut, ReadWatcherData, a, k, 0);
            var more := k + CHUNK < Size(a);
            && (Succ(t) == if more then [x, At(WRead, a, k + CHUNK, 0)] else [x])
            && (Succ(Answered(x)) == if more then [] else [At(WValue, a, 0, 0)])
  {
  }

  lemma {:induction false} CostListChunks(f: Token -> nat, a: Assign, k: nat)
    requires k < Size(a)
    ensures Cost(f, At(WRead, a, k, 0)) == ListChunks(f, a, k) + Cost(f, At(WValue, a, 0, 0))
    decreases Size(a) - k
  {
    var t, x := At(WRead, a, k, 0), Token(WOut, ReadWatcherData, a, k, 0);
    var more := k + CHUNK < Size(a);
    hide Cost, Succ, Height;
    ListChunksSucc(a, k);
    CostRead(f, x);
    if more {
      CostTwo(f, t, x, At(WRead, a, k + CHUNK, 0));
      CostNone(f, Answered(x));
      CostListChunks(f, a, k + CHUNK);
    } else {
      CostOne(f, t, x);
      CostOne(f, Answered(x), At(WValue, a, 0, 0));
    }
  }

  lemma ListValuesSucc(a: Assign, k: nat)
    requires k < Size(a)
    ensures var t, x := At(WValue, a, k, 0), Token(WOut, ReadWatcherValue, a, k, 0);
            var more := k + 1 < Size(a);
            && (Succ(t) == if more then [x, At(WValue, a, k + 1, 0)] else [x])
            && (Succ(Answered(x)) == if more then [] else [At(WProc, a, 0, 0)])
  {
  }

  lemma {:induction false} CostListValues(f: Token -> nat, a: Assign, k: nat)
    requires k < Size(a)
    ensures Cost(f, At(WValue, a, k, 0)) == ListValues(f, a, k) + Cost(f, At(WProc, a, 0, 0))
    decreases Size(a) - k
  {
    var t, x := At(WValue, a, k, 0), Token(WOut, ReadWatcherValue, a, k, 0);
    var more := k + 1 < Size(a);
    hide Cost, Succ, Height;
    ListValuesSucc(a, k);
    CostRead(f, x);
    if more {
      CostTwo(f, t, x, At(WValue, a, k + 1, 0));
      CostNone(f, Answered(x));
      CostListValues(f, a, k + 1);
    } else {
      CostOne(f, t, x);
      CostOne(f, Answered(x), At(WProc, a, 0, 0));
    }
  }

  lemma ClauseChunksSucc(a: Assign, w: nat, c: nat)
    ensures var t, x := At(CData, a, w, c), Token(COut, ReadClauseData, a, w, c);
            var more := c + CHUNK < Literals(a, w);
            && (Succ(t) == if more then [x, At(CData, a, w, c + CHUNK)] else [x])
            && (Succ(Answered(x)) == if more then [] else [At(CValue, a, w, 0)])
  {
  }

  lemma {:induction false} CostClauseChunks(f: Token -> nat, a: Assign, w: nat, c: nat)
    ensures Cost(f, At(CData, a, w, c)) == ClauseChunks(f, a, w, c) + Cost(f, At(CValue, a, w, 0))
    decreases Literals(a, w) - c
  {
    var t, x := At(CData, a, w, c), Token(COut, ReadClauseData, a, w, c);
    var more := c + CHUNK < Literals(a, w);
    hide Cost, Succ, Height;
    ClauseChunksSucc(a, w, c);
    CostRead(f, x);
    if more {
      CostTwo(f, t, x, At(CData, a, w, c + CHUNK));
      CostNone(f, Answered(x));
      CostClauseChunks(f, a, w, c + CHUNK);
    } else {
      CostOne(f, t, x);
      CostOne(f, Answered(x), At(CValue, a, w, 0));
    }
  }

  lemma ClauseValuesSucc(a: Assign, w: nat, c: nat)
    ensures var t, x := At(CValue, a, w, c), Token(COut, ReadClauseValue, a, w, c);
            var more := c + 1 < Literals(a, w);
            && (Succ(t) == if more then [x, At(CValue, a, w, c + 1)] else [x])
            && (Succ(Answered(x)) == if more then [] else [At(CProc, a, w, 0)])
  {
  }

  lemma {:induction false} CostClauseValues(f: Token -> nat, a: Assign, w: nat, c: nat)
    ensures Cost(f, At(CValue, a, w, c)) == ClauseValues(f, a, w, c) + Cost(f, At(CProc, a, w, 0))
    decreases Literals(a, w) - c
  {
    var t, x := At(CValue, a, w, c), Token(COut, ReadClauseValue, a, w, c);
    var more := c + 1 < Literals(a, w);
    hide Cost, Succ, Height;
    ClauseValuesSucc(a, w, c);
    CostRead(f, x);
    if more {
      CostTwo(f, t, x, At(CValue, a, w, c + 1));
      CostNone(f, Answered(x));
      CostClauseValues(f, a, w, c + 1);
    } else {
      CostOne(f, t, x);
      CostOne(f, Answered(x), At(CProc, a, w, 0));
    }
  }

  lemma ClauseWritesSucc(a: Assign, w: nat)
    ensures var c := LastLiteral(Literals(a, w));
            var k, o := At(KIn, a, w, c), At(KOut, a, w, c);
            var one := Literals(a, w) <= CHUNK;
            && (Succ(At(CWrite, a, w, c)) == [k] && Succ(o) == [])
            && (Succ(k) == if one then [o] else [o, o])
  {
  }

  lemma CostClauseWrites(f: Token -> nat, a: Assign, w: nat)
    ensures Cost(f, At(CWrite, a, w, LastLiteral(Literals(a, w)))) == ClauseWrites(f, a, w)
  {
    var c := LastLiteral(Literals(a, w));
    var k, o := At(KIn, a, w, c), At(KOut, a, w, c);
    var one := Literals(a, w) <= CHUNK;
    hide Cost, Succ, Height;
    ClauseWritesSucc(a, w);
    CostOne(f, At(CWrite, a, w, c), k);
    CostNone(f, o);
    if one { CostOne(f, k, o); } else { CostTwo(f, k, o, o); }
  }

  // The end of a clause: its write, and the assignment it implies.
  lemma CostClauseEnd(f: Token -> nat, a: Assign, w: nat, c: nat)
    requires c == LastLiteral(Literals(a, w))
    ensures Cost(f, At(CProc, a, w, c)) == f(At(CProc, a, w, c)) + ClauseWrites(f, a, w) + ImpliedBill(f, a, w)
    decreases Height(a), 0, 0
  {
    var t, child, end := At(CProc, a, w, c), Child(a, w), At(CWrite, a, w, c);
    hide Cost, Succ, Height, ListBill, ClauseWrites;
    EndSucc(t);
    ChildLower(a, w);
    CostClauseWrites(f, a, w);
    if child.Implies? {
      var g, b := At(CGen, child.child, 0, 0), At(Trail, child.child, 0, 0);
      CostTwo(f, t, g, end);
      CostOne(f, g, b);
      CostIsBill(f, child.child);
    } else {
      CostOne(f, t, end);
    }
  }

  lemma EndSucc(t: Token)
    requires t == At(CProc, t.a, t.w, LastLiteral(Literals(t.a, t.w)))
    ensures var child, end := Child(t.a, t.w), At(CWrite, t.a, t.w, t.c);
            && Succ(t) == (if child.Implies? then [At(CGen, child.child, 0, 0), end] else [end])
            && (child.Implies? ==> Succ(At(CGen, child.child, 0, 0)) == [At(Trail, child.child, 0, 0)])
  {
  }

  lemma ClauseStepsSucc(a: Assign, w: nat, c: nat)
    requires Within(c, Literals(a, w))
    ensures var more := c + 1 < Literals(a, w);
            && (more ==> Succ(At(CProc, a, w, c)) == [At(CProc, a, w, c + 1)])
  {
  }

  lemma {:induction false} CostClauseSteps(f: Token -> nat, a: Assign, w: nat, c: nat)
    requires Within(c, Literals(a, w))
    ensures Cost(f, At(CProc, a, w, c))
         == ClauseSteps(f, a, w, c) + ClauseWrites(f, a, w) + ImpliedBill(f, a, w)
    decreases Height(a), 1, Literals(a, w) - c
  {
    var more := c + 1 < Literals(a, w);
    hide Cost, Succ, Height, ImpliedBill, ClauseWrites;
    ClauseStepsSucc(a, w, c);
    if more {
      CostOne(f, At(CProc, a, w, c), At(CProc, a, w, c + 1));
      CostClauseSteps(f, a, w, c + 1);
    } else {
      CostClauseEnd(f, a, w, c);
    }
  }

  lemma TaskSucc(a: Assign, w: nat)
    ensures && (Succ(At(WSend, a, w, 0)) == [At(CNet, a, w, 0)])
            && (Succ(At(CNet, a, w, 0)) == [At(CTask, a, w, 0)])
            && (Succ(At(CTask, a, w, 0)) == [At(CData, a, w, 0)])
  {
  }

  lemma CostClause(f: Token -> nat, a: Assign, w: nat)
    ensures Cost(f, At(WSend, a, w, 0)) == ClauseBill(f, a, w)
    decreases Height(a), 2, 0
  {
    hide Cost, Succ, Height, ImpliedBill, ClauseWrites, ClauseChunks, ClauseValues, ClauseSteps;
    TaskSucc(a, w);
    CostOne(f, At(WSend, a, w, 0), At(CNet, a, w, 0));
    CostOne(f, At(CNet, a, w, 0), At(CTask, a, w, 0));
    CostOne(f, At(CTask, a, w, 0), At(CData, a, w, 0));
    CostClauseChunks(f, a, w, 0);
    CostClauseValues(f, a, w, 0);
    CostClauseSteps(f, a, w, 0);
  }

  lemma ProcessSucc(a: Assign, k: nat)
    requires k < Size(a)
    ensures var t, x, y, z := At(WProc, a, k, 0), At(WList, a, k, 0), At(WSend, a, k, 0), At(WProc, a, k + 1, 0);
            var more, clause := k + 1 < Size(a), ReadsClause(a, k);
            && (Succ(x) == [])
            && (Succ(t) == if clause then (if more then [x, y, z] else [x, y]) else if more then [x, z] else [x])
  {
  }

  lemma {:induction false} CostWatchers(f: Token -> nat, a: Assign, k: nat)
    requires k < Size(a)
    ensures Cost(f, At(WProc, a, k, 0)) == WatchersBill(f, a, k)
    decreases Height(a), 3, Size(a) - k
  {
    var t, x, y, z := At(WProc, a, k, 0), At(WList, a, k, 0), At(WSend, a, k, 0), At(WProc, a, k + 1, 0);
    var more, clause := k + 1 < Size(a), ReadsClause(a, k);
    hide Cost, Succ, Height, ClauseBill;
    ProcessSucc(a, k);
    CostNone(f, x);
    if clause { CostClause(f, a, k); }
    if more { CostWatchers(f, a, k + 1); }
    if clause && more { CostThree(f, t, x, y, z); }
    else if clause { CostTwo(f, t, x, y); }
    else if more { CostTwo(f, t, x, z); }
    else { CostOne(f, t, x); }
  }

  lemma TrailSucc(a: Assign)
    ensures && Succ(At(Trail, a, 0, 0)) == [At(WTask, a, 0, 0)]
            && Succ(At(WTask, a, 0, 0)) == [At(WMeta, a, 0, 0)]
            && Succ(At(WMeta, a, 0, 0)) == [Token(WOut, ReadWatcherMetaData, a, 0, 0)]
  {
  }

  lemma MetaSucc(a: Assign)
    ensures && Succ(Answered(Token(WOut, ReadWatcherMetaData, a, 0, 0))) == [At(WRead, a, 0, 0)]
            && (Size(a) == 0 ==> Succ(At(WRead, a, 0, 0)) == [])
  {
  }

  lemma CostTrail(f: Token -> nat, a: Assign)
    ensures Cost(f, At(Trail, a, 0, 0))
         == f(At(Trail, a, 0, 0)) + f(At(WTask, a, 0, 0)) + f(At(WMeta, a, 0, 0))
            + Cost(f, Token(WOut, ReadWatcherMetaData, a, 0, 0))
  {
    hide Cost, Succ;
    TrailSucc(a);
    CostOne(f, At(Trail, a, 0, 0), At(WTask, a, 0, 0));
    CostOne(f, At(WTask, a, 0, 0), At(WMeta, a, 0, 0));
    CostOne(f, At(WMeta, a, 0, 0), Token(WOut, ReadWatcherMetaData, a, 0, 0));
  }

  // The bill is right: for every weight, everything that a trail entry will
  // cause weighs what the bill says.
  lemma {:induction false} CostIsBill(f: Token -> nat, a: Assign)
    ensures Cost(f, At(Trail, a, 0, 0)) == ListBill(f, a)
    decreases Height(a), 4, 0
  {
    hide Cost, Succ, Height, ListChunks, ListValues, WatchersBill;
    var x := Token(WOut, ReadWatcherMetaData, a, 0, 0);
    MetaSucc(a);
    CostTrail(f, a);
    CostRead(f, x);
    CostOne(f, Answered(x), At(WRead, a, 0, 0));
    if Size(a) == 0 {
      CostNone(f, At(WRead, a, 0, 0));
    } else {
      CostListChunks(f, a, 0);
      CostListValues(f, a, 0);
      CostWatchers(f, a, 0);
    }
  }
}
