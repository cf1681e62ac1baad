// The memory traffic of a drained run in closed form, independent of schedule.
module Traffic {
  import opened Bags
  import opened Bill
  import opened Conservation
  import opened Forest
  import opened Queues
  import opened Schedules
  import opened System
  import opened Tokens

  datatype Kind =
    | MetaReads | ListDataReads | ListValueReads | ListWrites
    | Tasks | ClauseDataReads | ClauseValueReads | LiteralSteps | ClauseWriteBacks
    | Assignments

  function Counts(k: Kind, t: Token): nat
  {
    match k
    case MetaReads => if t.p.WMem? && t.kind.ReadWatcherMetaData? then 1 else 0
    case ListDataReads => if t.p.WMem? && t.kind.ReadWatcherData? then 1 else 0
    case ListValueReads => if t.p.WMem? && t.kind.ReadWatcherValue? then 1 else 0
    case ListWrites => if t.p.WList? then 1 else 0
    case Tasks => if t.p.CTask? then 1 else 0
    case ClauseDataReads => if t.p.CMem? && t.kind.ReadClauseData? then 1 else 0
    case ClauseValueReads => if t.p.CMem? && t.kind.ReadClauseValue? then 1 else 0
    case LiteralSteps => if t.p.CProc? then 1 else 0
    case ClauseWriteBacks => if t.p.KOut? then 1 else 0
    case Assignments => if t.p.Trail? then 1 else 0
  }

  function Counter(k: Kind): Token -> nat { (t: Token) => Counts(k, t) }

  // Chunks of 16 that cover n.
  function Chunks(n: nat): nat { (n + 15) / 16 }

  // One assignment with a list of n watchers: one read of its metadata, one per
  // chunk, one value read and one write per watcher.
  function OfList(k: Kind, n: nat): nat
  {
    match k
    case MetaReads => 1
    case ListDataReads => Chunks(n)
    case ListValueReads => n
    case ListWrites => n
    case Assignments => 1
    case _ => 0
  }

  // One clause of m literals. An empty one is still read and stepped through once.
  function OfClause(k: Kind, m: nat): nat
  {
    match k
    case Tasks => 1
    case ClauseDataReads => if m == 0 then 1 else Chunks(m)
    case ClauseValueReads => if m == 0 then 1 else m
    case LiteralSteps => if m == 0 then 1 else m
    case ClauseWriteBacks => if m <= 16 then 1 else 2
    case _ => 0
  }

  // An assignment costs its list, and for each entry that asks for its clause,
  // the clause and the assignment it implies.
  ghost function OfAssign(k: Kind, a: Assign): nat { OfList(k, |a.watchers|) + OfEntries(k, a.watchers) }

  ghost function OfEntries(k: Kind, es: seq<Entry>): nat {
    if es == [] then 0 else OfEntry(k, es[0]) + OfEntries(k, es[1..])
  }

  ghost function OfEntry(k: Kind, e: Entry): nat
  {
    if !e.readClause then 0
    else
      OfClause(k, e.literals)
      + match e.generated
        case Null => 0
        case Implies(child) => OfAssign(k, child)
  }

  lemma {:induction false} CountListChunks(k: Kind, a: Assign, i: nat)
    ensures ListChunks(Counter(k), a, i)
         == if k.ListDataReads? && i < Size(a) then Chunks(Size(a) - i) else 0
    decreases Size(a) - i
  {
    if i < Size(a) { CountListChunks(k, a, i + CHUNK); }
  }

  lemma {:induction false} CountListValues(k: Kind, a: Assign, i: nat)
    ensures ListValues(Counter(k), a, i) == if k.ListValueReads? && i < Size(a) then Size(a) - i else 0
    decreases Size(a) - i
  {
    if i < Size(a) { CountListValues(k, a, i + 1); }
  }

  lemma {:induction false} CountClauseChunks(k: Kind, a: Assign, w: nat, c: nat)
    requires Within(c, Literals(a, w))
    ensures ClauseChunks(Counter(k), a, w, c)
         == if k.ClauseDataReads? then (if c < Literals(a, w) then Chunks(Literals(a, w) - c) else 1) else 0
    decreases Literals(a, w) - c
  {
    if c + CHUNK < Literals(a, w) { CountClauseChunks(k, a, w, c + CHUNK); }
  }

  lemma {:induction false} CountClauseValues(k: Kind, a: Assign, w: nat, c: nat)
    requires Within(c, Literals(a, w))
    ensures ClauseValues(Counter(k), a, w, c)
         == if k.ClauseValueReads? then (if c < Literals(a, w) then Literals(a, w) - c else 1) else 0
    decreases Literals(a, w) - c
  {
    if c + 1 < Literals(a, w) { CountClauseValues(k, a, w, c + 1); }
  }

  lemma {:induction false} CountClauseSteps(k: Kind, a: Assign, w: nat, c: nat)
    requires Within(c, Literals(a, w))
    ensures ClauseSteps(Counter(k), a, w, c)
         == if k.LiteralSteps? then (if c < Literals(a, w) then Literals(a, w) - c else 1) else 0
    decreases Literals(a, w) - c
  {
    if c + 1 < Literals(a, w) { CountClauseSteps(k, a, w, c + 1); }
  }

  // What a clause and a list weigh besides their chunks, values and steps.
  lemma ClauseEnds(k: Kind, a: Assign, w: nat)
    ensures var f := Counter(k);
            && f(At(WSend, a, w, 0)) + f(At(CNet, a, w, 0)) + f(At(CTask, a, w, 0)) == (if k.Tasks? then 1 else 0)
            && ClauseWrites(f, a, w)
               == (if !k.ClauseWriteBacks? then 0 else if Literals(a, w) <= 16 then 1 else 2)
  {
  }

  lemma ImpliedEnds(k: Kind, a: Assign, w: nat)
    ensures ImpliedBill(Counter(k), a, w)
         == if Child(a, w).Implies? then ListBill(Counter(k), Child(a, w).child) else 0
  {
    hide ListBill, Height;
  }

  lemma ListEnds(k: Kind, a: Assign)
    ensures var f := Counter(k);
            && f(At(Trail, a, 0, 0)) + f(At(WTask, a, 0, 0)) + f(At(WMeta, a, 0, 0))
               + Read(f, Token(WOut, ReadWatcherMetaData, a, 0, 0))
               == (if k.MetaReads? || k.Assignments? then 1 else 0)
            && f(At(WRead, a, 0, 0)) == 0
  {
  }

  lemma {:induction false} CountClause(k: Kind, a: Assign, w: nat)
    requires w < |a.watchers| && a.watchers[w].readClause
    ensures ClauseBill(Counter(k), a, w) == OfEntry(k, a.watchers[w])
    decreases Height(a), 0, 0
  {
    hide ClauseChunks, ClauseValues, ClauseSteps, ClauseWrites, ImpliedBill, ListBill, OfAssign, Height, Counter;
    ClauseEnds(k, a, w);
    ImpliedEnds(k, a, w);
    CountClauseChunks(k, a, w, 0);
    CountClauseValues(k, a, w, 0);
    CountClauseSteps(k, a, w, 0);
    if Child(a, w).Implies? {
      ChildLower(a, w);
      CountList(k, Child(a, w).child);
    }
  }

  lemma {:induction false} CountWatchers(k: Kind, a: Assign, w: nat)
    requires w <= |a.watchers|
    ensures WatchersBill(Counter(k), a, w)
         == OfEntries(k, a.watchers[w..]) + if k.ListWrites? then |a.watchers| - w else 0
    decreases Height(a), 1, |a.watchers| - w
  {
    hide ClauseBill, Height, OfEntry;
    if w < |a.watchers| {
      SkippedIs(k, a.watchers[w]);
      if ReadsClause(a, w) { CountClause(k, a, w); }
      CountWatchers(k, a, w + 1);
      assert a.watchers[w..][0] == a.watchers[w] && a.watchers[w..][1..] == a.watchers[w + 1..];
    }
  }

  lemma NoEntries(k: Kind)
    ensures OfEntries(k, []) == 0
  {
  }

  lemma SkippedIs(k: Kind, e: Entry)
    ensures !e.readClause ==> OfEntry(k, e) == 0
  {
  }

  lemma {:induction false} CountList(k: Kind, a: Assign)
    ensures ListBill(Counter(k), a) == OfAssign(k, a)
    decreases Height(a), 2, 0
  {
    hide ListChunks, ListValues, WatchersBill, Height, Counter, Read, OfEntries;
    ListEnds(k, a);
    NoEntries(k);
    CountListChunks(k, a, 0);
    CountListValues(k, a, 0);
    CountWatchers(k, a, 0);
    assert a.watchers[0..] == a.watchers;
  }

  ghost function OfTrail(k: Kind, trail: seq<Req>): nat
  {
    if trail == [] then 0 else OfAssign(k, trail[0].a) + OfTrail(k, trail[1..])
  }

  lemma {:induction false} CountTrail(k: Kind, trail: seq<Req>)
    ensures Total(Counter(k), ExpandAll(Bag(Trail, trail))) == OfTrail(k, trail)
  {
    hide Total, Gather, Bag, Expand, OfAssign;
    var f := Counter(k);
    if trail == [] {
      BagNone(Trail);
      GatherNone(Expand);
      TotalNone(f);
    } else {
      var r, rest := trail[0], trail[1..];
      CountTrail(k, rest);
      TrailSplit(trail);
      TotalUnion(f, Expand(At(Trail, r.a, 0, 0)), ExpandAll(Bag(Trail, rest)));
      CostIsBill(f, r.a);
      CountList(k, r.a);
    }
  }

  // Closed-form traffic: what a drained run without fall-through has sent to
  // memory depends on the trail it started from and on nothing else. With
  // fall-throughs it has sent no more than that.
  lemma DrainedTraffic(k: Kind, trail: seq<Req>, nw: nat, nc: nat, nk: nat, acts: seq<Action>)
    requires Config(Run(Start(trail, nw, nc, nk), acts)) == multiset{}
    ensures var b := Books(Start(trail, nw, nc, nk), acts);
            && Total(Counter(k), b.log) <= OfTrail(k, trail)
            && (b.falls == 0 ==> Total(Counter(k), b.log) == OfTrail(k, trail))
  {
    hide Total, Config, Expand, Bag;
    var s := Start(trail, nw, nc, nk);
    StartConfig(trail, nw, nc, nk);
    DrainedLog(s, acts);
    CountTrail(k, trail);
    TotalUnion(Counter(k), Books(s, acts).log, Books(s, acts).given);
  }
}
