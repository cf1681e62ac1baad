// Which tokens will still write a watcher list: a test on the token itself, that
// says whether anything in its expansion is a list write.
module WriteDemand {
  import opened Bags
  import opened Bill
  import opened Forest
  import opened Tokens
  import Traffic

  // The clause of the token implies an assignment with a non-empty list.
  predicate ImpliesList(t: Token) { Child(t.a, t.w).Implies? && Size(Child(t.a, t.w).child) > 0 }

  predicate LeadsToWrite(t: Token)
  {
    var n, m := Size(t.a), Literals(t.a, t.w);
    match t.p
    case Trail => n > 0
    case WTask => n > 0
    case WMeta => n > 0
    case CGen => n > 0
    case WOut => AnswerLeads(t)
    case WMem => AnswerLeads(t)
    case WResp => AnswerLeads(t)
    case WRead => t.w < n
    case WValue => true
    case WProc => true
    case WList => true
    case WSend => ImpliesList(t)
    case CNet => ImpliesList(t)
    case CTask => ImpliesList(t)
    case CData => ImpliesList(t)
    case COut => AnswerLeads(t)
    case CMem => AnswerLeads(t)
    case CResp => AnswerLeads(t)
    case CValue => ImpliesList(t)
    case CProc => ImpliesList(t)
    case CWrite => false
    case KIn => false
    case KOut => false
  }

  // A read leads on if it is the last of its list or clause.
  predicate AnswerLeads(t: Token)
  {
    var n, m := Size(t.a), Literals(t.a, t.w);
    match t.kind
    case ReadWatcherMetaData => n > 0
    case ReadWatcherData => t.w + CHUNK >= n
    case ReadWatcherValue => t.w + 1 >= n
    case ReadClauseData => t.c + CHUNK >= m && ImpliesList(t)
    case ReadClauseValue => t.c + 1 >= m && ImpliesList(t)
    case _ => false
  }

  function Writes(): Token -> nat { Traffic.Counter(Traffic.ListWrites) }

  predicate AnyLeads(s: seq<Token>)
  {
    (|s| > 0 && LeadsToWrite(s[0])) || (|s| > 1 && LeadsToWrite(s[1])) || (|s| > 2 && LeadsToWrite(s[2]))
  }

  lemma WatcherLeads(t: Token)
    requires WellFormed(t) && InWatcher(t.p)
    ensures LeadsToWrite(t) <==> t.p.WList? || AnyLeads(WatcherSucc(t))
  {
  }

  lemma ClauseLeads(t: Token)
    requires WellFormed(t) && !InWatcher(t.p)
    ensures LeadsToWrite(t) <==> AnyLeads(ClauseSucc(t))
  {
  }

  // A token writes a list, or one of those it leaves behind does.
  lemma LeadsLocally(t: Token)
    requires WellFormed(t)
    ensures LeadsToWrite(t) <==> t.p.WList? || AnyLeads(Succ(t))
  {
    hide WatcherSucc, ClauseSucc, LeadsToWrite, AnyLeads, WellFormed;
    if InWatcher(t.p) { WatcherLeads(t); } else { ClauseLeads(t); }
  }

  lemma SuccShort(t: Token)
    requires WellFormed(t)
    ensures |Succ(t)| <= 3
    ensures AllBelow(Succ(t), t) && FirstThree(Succ(t))
  {
    hide WatcherSucc, ClauseSucc, WellFormed, Below;
    SuccFalls(t);
    if InWatcher(t.p) { WatcherSuccWellFormed(t); } else { ClauseSuccWellFormed(t); }
  }

  lemma OwnWeight(t: Token)
    ensures Writes()(t) == if t.p.WList? then 1 else 0
  {
  }

  lemma {:induction false} DemandIff(t: Token)
    requires WellFormed(t)
    ensures Cost(Writes(), t) > 0 <==> LeadsToWrite(t)
    decreases Height(t.a), Order(t), Left(t)
  {
    hide Cost, Succ, LeadsToWrite, WellFormed, Height, Order, Left, Writes;
    SuccShort(t);
    LeadsLocally(t);
    OwnWeight(t);
    var s, f := Succ(t), Writes();
    if |s| == 0 {
      CostNone(f, t);
    } else if |s| == 1 {
      assert s == [s[0]];
      CostOne(f, t, s[0]);
      DemandIff(s[0]);
    } else if |s| == 2 {
      assert s == [s[0], s[1]];
      CostTwo(f, t, s[0], s[1]);
      DemandIff(s[0]);
      DemandIff(s[1]);
    } else {
      assert s == [s[0], s[1], s[2]];
      CostThree(f, t, s[0], s[1], s[2]);
      DemandIff(s[0]);
      DemandIff(s[1]);
      DemandIff(s[2]);
    }
  }

  // The tokens of m write no list, together, exactly if none of them does.
  lemma {:induction false} NoDemandIff(m: multiset<Token>)
    requires AllWellFormed(m)
    ensures Total(Writes(), ExpandAll(m)) == 0 <==> forall t :: t in m ==> !LeadsToWrite(t)
    decreases |m|
  {
    hide Total, Expand, Gather, WellFormed, LeadsToWrite, Writes;
    if m == multiset{} {
      GatherNone(Expand);
      TotalNone(Writes());
    } else {
      var t :| t in m;
      var rest := m - multiset{t};
      NoDemandIff(rest);
      DemandIff(t);
      GatherPick(Expand, m, t);
      TotalUnion(Writes(), Expand(t), ExpandAll(rest));
      assert forall x :: x in m <==> x == t || x in rest;
    }
  }
}
