// Nothing is lost: what has been done, what the tokens in flight will still
// cause and what fall-throughs gave up always add up to the expansion of the
// initial trail, in every run and whatever the order of the answers.
module Conservation {
  import opened Bags
  import opened Forest
  import opened Queues
  import opened System
  import opened Tokens
  import Watcher
  import Clause
  import ClauseWriter

  // The tokens that an action leaves behind.
  ghost function Made(s: System, a: Action): seq<Token>
    requires Enabled(s, a)
  {
    if a.ClauseStage? then PutToks(Clause.Puts(a.cs, s.cs[a.c], Taken(s, a)))
    else Succ(TakenToken(s, a))
  }

  // The action hits a clause whose last chunk meets a full value queue.
  predicate Falls(s: System, a: Action)
  {
    Enabled(s, a) && a.ClauseStage? && Clause.FallsThrough(a.cs, s.cs[a.c])
  }

  lemma WatcherSame(s: System, w: nat, u: Watcher.State)
    requires w < |s.ws|
    ensures SameBut(s, W(w), s.(ws := s.ws[w := u]))
  {
  }

  lemma ClauseSame(s: System, c: nat, u: Clause.State)
    requires c < |s.cs|
    ensures SameBut(s, C(c), s.(cs := s.cs[c := u]))
  {
  }

  lemma WriterSame(s: System, k: nat, q: Queues)
    requires k < |s.ks|
    ensures SameBut(s, K(k), s.(ks := s.ks[k := q]))
  {
  }

  lemma TopSame(s: System, q: Queues)
    ensures SameBut(s, Top, s.(top := q))
  {
  }

  lemma WithQueuesSame(s: System, u: Where, q: Queues)
    requires Exists(s, u)
    ensures var s' := WithQueues(s, u, q); SameBut(s, u, s') && QueuesOf(s', u) == q
  {
    hide SameBut;
    match u
    case Top => TopSame(s, q);
    case W(i) => WatcherSame(s, i, s.ws[i].(q := q));
    case C(i) => ClauseSame(s, i, s.cs[i].(q := q));
    case K(i) => WriterSame(s, i, q);
  }

  lemma CountedSame(s: System, r: Route)
    requires Exists(s, From(r).0)
    ensures Shelves(Counted(s, r)) == Shelves(s)
  {
  }

  lemma Give(s: System, u: Where, p: Place, x: Req)
    requires Exists(s, u)
    ensures Config(WithQueues(s, u, Push(QueuesOf(s, u), p, x))) == Config(s) + multiset{Tok(p, x)}
  {
    hide Held, Config, SameBut;
    var q := QueuesOf(s, u);
    var s' := WithQueues(s, u, Push(q, p, x));
    WithQueuesSame(s, u, Push(q, p, x));
    PushHeld(q, p, x);
    ConfigUpdate(s, u, s');
    Cancel(Config(s'), Config(s) + multiset{Tok(p, x)}, Held(q));
  }

  lemma TransferFires(s: System, r: Route, j: nat)
    requires Enabled(s, Carry(r, j))
    ensures var t := TakenToken(s, Carry(r, j));
            Fires(Config(s), t,
                  if To(r).Some? then [Tok(To(r).value.1, Taken(s, Carry(r, j)))] else [],
                  Config(CarryStep(s, r, j)))
  {
    hide Held, Config, SameBut, Counted, WithQueues;
    var (u, p) := From(r);
    var x := Get(QueuesOf(s, u), p)[j];
    LeaveFires(s, r, j);
    if To(r).Some? {
      SameUnits(s, r, Drop(QueuesOf(s, u), p, j), To(r).value.0);
      var s1 := Counted(WithQueues(s, u, Drop(QueuesOf(s, u), p, j)), r);
      Give(s1, To(r).value.0, To(r).value.1, x);
    }
  }

  lemma SameUnits(s: System, r: Route, q: Queues, v: Where)
    requires Exists(s, From(r).0)
    ensures Exists(WithQueues(s, From(r).0, q), From(r).0)
    ensures Exists(Counted(WithQueues(s, From(r).0, q), r), v) <==> Exists(s, v)
  {
  }

  lemma LeaveFires(s: System, r: Route, j: nat)
    requires Enabled(s, Carry(r, j))
    ensures var (u, p) := From(r);
            var s0 := WithQueues(s, u, Drop(QueuesOf(s, u), p, j));
            Exists(s0, u) && Fires(Config(s), TakenToken(s, Carry(r, j)), [], Config(Counted(s0, r)))
  {
    hide Held, Shelves, SameBut, Join, Fires;
    var (u, p) := From(r);
    var x := Get(QueuesOf(s, u), p)[j];
    var s0 := WithQueues(s, u, Drop(QueuesOf(s, u), p, j));
    WithQueuesSame(s, u, Drop(QueuesOf(s, u), p, j));
    DropFires(QueuesOf(s, u), p, j);
    SameUnits(s, r, Drop(QueuesOf(s, u), p, j), u);
    UnitFires(s, u, s0, Tok(p, x), []);
    CountedSame(s0, r);
    assert Config(Counted(s0, r)) == Config(s0);
  }

  lemma DropFires(q: Queues, p: Place, j: nat)
    requires j < |Get(q, p)|
    ensures Fires(Held(q), Tok(p, Get(q, p)[j]), [], Held(Drop(q, p, j)))
  {
    hide Held;
    DropHeld(q, p, j);
  }

  lemma CarrySucc(r: Route, x: Req)
    ensures Succ(Tok(From(r).1, x)) == if To(r).Some? then [Tok(To(r).value.1, x)] else []
  {
  }

  lemma WatcherFires(s: System, w: nat, st: Watcher.Stage)
    requires Enabled(s, WatcherStage(w, st)) && WellFormed(TakenToken(s, WatcherStage(w, st)))
    ensures var a := WatcherStage(w, st);
            Fires(Config(s), TakenToken(s, a), Succ(TakenToken(s, a)), Config(Apply(s, a)))
  {
    hide Fires, Config, SameBut, Held, Succ, Watcher.Step;
    Watcher.StageFires(st, s.ws[w]);
    WatcherSame(s, w, Watcher.Step(st, s.ws[w]));
    var a := WatcherStage(w, st);
    UnitFires(s, W(w), Apply(s, a), TakenToken(s, a), Succ(TakenToken(s, a)));
  }

  lemma ClauseFires(s: System, c: nat, st: Clause.Stage)
    requires Enabled(s, ClauseStage(c, st))
    ensures var a := ClauseStage(c, st);
            Fires(Config(s), TakenToken(s, a), Made(s, a), Config(Apply(s, a)))
  {
    hide Fires, Config, SameBut, Held, PutToks, Clause.Puts, Clause.Step;
    Clause.StageFires(st, s.cs[c]);
    ClauseSame(s, c, Clause.Step(st, s.cs[c]));
    UnitFires(s, C(c), Apply(s, ClauseStage(c, st)), TakenToken(s, ClauseStage(c, st)), Made(s, ClauseStage(c, st)));
  }

  // Every action is one firing of the token it takes.
  lemma ActionFires(s: System, a: Action)
    requires Enabled(s, a) && WellFormed(TakenToken(s, a))
    ensures Fires(Config(s), TakenToken(s, a), Made(s, a), Config(Apply(s, a)))
  {
    hide Fires, Config, SameBut, Held, PutToks, Succ, Clause.Puts, CarryStep;
    match a
    case WatcherStage(w, st) => WatcherFires(s, w, st);
    case ClauseStage(c, st) => ClauseFires(s, c, st);
    case WriterStage(k) =>
      ClauseWriter.StepFires(s.ks[k]);
      WriterSame(s, k, ClauseWriter.Step(s.ks[k]));
      UnitFires(s, K(k), Apply(s, a), TakenToken(s, a), Made(s, a));
    case Carry(r, j) =>
      TransferFires(s, r, j);
      CarrySucc(r, Taken(s, a));
  }

  // The last value read of a clause leads to its processing.
  lemma LastValueRead(x: Token)
    requires x.p.COut? && x.kind.ReadClauseValue? && x.c + 1 >= Literals(x.a, x.w)
    ensures Expand(At(CProc, x.a, x.w, 0)) <= Expand(x)
  {
    assert Succ(Answered(x)) == [At(CProc, x.a, x.w, 0)];
    hide Expand, Succ;
    ReadHops(x);
    ExpandOne(Answered(x), At(CProc, x.a, x.w, 0));
  }

  // A clause that reaches its value reads will be processed.
  lemma {:induction false} ValuesLeadToProcess(a: Assign, w: nat, c: nat)
    ensures Expand(At(CProc, a, w, 0)) + multiset{At(CValue, a, w, c)} <= Expand(At(CValue, a, w, c))
    decreases Literals(a, w) - c
  {
    var t := At(CValue, a, w, c);
    var x := Token(COut, ReadClauseValue, a, w, c);
    var more := c + 1 < Literals(a, w);
    assert Succ(t) == if more then [x, At(CValue, a, w, c + 1)] else [x];
    hide Expand, Succ;
    if more {
      ExpandTwo(t, x, At(CValue, a, w, c + 1));
      ValuesLeadToProcess(a, w, c + 1);
    } else {
      ExpandOne(t, x);
      LastValueRead(x);
    }
  }

  // What a fall-through gives up.
  ghost function GivenUp(s: System, a: Action): multiset<Token>
    requires Enabled(s, a)
  {
    ExpandAll(multiset(Succ(TakenToken(s, a)))) - ExpandAll(multiset(Made(s, a)))
  }

  lemma MadeIsSucc(s: System, a: Action)
    requires Enabled(s, a)
    ensures Made(s, a) == Succ(TakenToken(s, a)) <==> !Falls(s, a)
  {
    hide PutToks, Clause.Puts, Succ;
    if a.ClauseStage? { Clause.PutsAreSucc(a.cs, s.cs[a.c]); }
  }

  lemma FallsCost(s: System, a: Action)
    requires Enabled(s, a)
    ensures ExpandAll(multiset(Made(s, a))) <= ExpandAll(multiset(Succ(TakenToken(s, a))))
    ensures GivenUp(s, a) == multiset{} <==> !Falls(s, a)
  {
    hide PutToks, Clause.Puts, Succ, ExpandAll, TakenToken, Made, Enabled;
    MadeIsSucc(s, a);
    if Falls(s, a) {
      var r := Taken(s, a);
      FallMade(s, a);
      ValuesCost(r.a, r.w);
      ExpandNone();
    }
  }

  lemma FallMade(s: System, a: Action)
    requires Falls(s, a)
    ensures var r := Taken(s, a);
            && Succ(TakenToken(s, a)) == [At(CValue, r.a, r.w, 0)]
            && (Made(s, a) == [] || Made(s, a) == [At(CProc, r.a, r.w, 0)])
  {
    hide PutToks, Clause.Puts, Succ;
    Clause.FallenPuts(a.cs, s.cs[a.c]);
  }

  lemma ExpandNone()
    ensures ExpandAll(multiset([])) == multiset{}
  {
    GatherNone(Expand);
  }

  // Going straight to processing saves work, and being dropped saves all of it.
  lemma ValuesCost(a: Assign, w: nat)
    ensures var v, p := ExpandAll(multiset([At(CValue, a, w, 0)])), ExpandAll(multiset([At(CProc, a, w, 0)]));
            p <= v && v - p != multiset{} && v != multiset{}
  {
    hide Expand, Gather;
    var v, p := At(CValue, a, w, 0), At(CProc, a, w, 0);
    GatherOne(Expand, v);
    GatherOne(Expand, p);
    ValuesLeadToProcess(a, w, 0);
    assert Expand(v)[v] > Expand(p)[v];
    assert v in Expand(v) - Expand(p);
  }

  // The history of a run: the tokens taken, the work given up, and how many
  // fall-throughs there were.
  datatype Book = Book(log: multiset<Token>, given: multiset<Token>, falls: nat)

  ghost function Record(b: Book, s: System, a: Action): Book
  {
    if !Enabled(s, a) then b
    else Book(b.log + multiset{TakenToken(s, a)},
              b.given + GivenUp(s, a),
              b.falls + if Falls(s, a) then 1 else 0)
  }

  ghost function Books(s: System, acts: seq<Action>): Book
    decreases |acts|
  {
    if acts == [] then Book(multiset{}, multiset{}, 0)
    else
      var before := acts[..|acts| - 1];
      Record(Books(s, before), Run(s, before), acts[|acts| - 1])
  }

  ghost predicate Balanced(b: Book, s: System, total: multiset<Token>)
  {
    && AllWellFormed(Config(s))
    && b.log + ExpandAll(Config(s)) + b.given == total
    && (b.given == multiset{} <==> b.falls == 0)
  }

  lemma MadeWellFormed(s: System, a: Action)
    requires Enabled(s, a) && WellFormed(TakenToken(s, a))
    ensures AllWellFormed(multiset(Made(s, a)))
  {
    hide PutToks, Clause.Puts, Succ;
    MadeIsSucc(s, a);
    SuccWellFormed(TakenToken(s, a));
    if Falls(s, a) { Clause.FallenPuts(a.cs, s.cs[a.c]); }
  }

  lemma TakenIsHeld(s: System, a: Action)
    requires Enabled(s, a)
    ensures TakenToken(s, a) in Config(s)
  {
    hide Held, Config, SameBut;
    var q := QueuesOf(s, Unit(a));
    DropHeld(q, Source(a), Slot(a));
    WithQueuesSame(s, Unit(a), q);
    ConfigUpdate(s, Unit(a), WithQueues(s, Unit(a), q));
  }

  lemma StepBalanced(b: Book, s: System, a: Action, total: multiset<Token>)
    requires Balanced(b, s, total)
    ensures Balanced(Record(b, s, a), Apply(s, a), total)
  {
    hide Config, Expand, WellFormed, Succ, Apply, Made, Enabled;
    if Enabled(s, a) {
      var t, m := TakenToken(s, a), multiset(Made(s, a));
      StepFires(s, a);
      FallsCost(s, a);
      ExpandSucc(t);
      FiredWellFormed(Config(s), t, m, Config(Apply(s, a)));
      Replace(Config(s), t, m);
      Settle(ExpandAll(Config(Apply(s, a))), ExpandAll(Config(s)), ExpandAll(m), ExpandAll(multiset(Succ(t))),
             multiset{t}, b.log, b.given);
    } else {
      assert Apply(s, a) == s by { Disabled(s, a); }
    }
  }

  lemma Disabled(s: System, a: Action)
    requires !Enabled(s, a)
    ensures Apply(s, a) == s
  {
  }

  lemma StepFires(s: System, a: Action)
    requires Enabled(s, a) && AllWellFormed(Config(s))
    ensures TakenToken(s, a) in Config(s)
    ensures Config(Apply(s, a)) == Config(s) - multiset{TakenToken(s, a)} + multiset(Made(s, a))
    ensures AllWellFormed(multiset(Made(s, a)))
  {
    hide Config, WellFormed, Apply, Made, Enabled;
    TakenIsHeld(s, a);
    ActionFires(s, a);
    MadeWellFormed(s, a);
  }

  lemma FiredWellFormed(m: multiset<Token>, t: Token, made: multiset<Token>, m': multiset<Token>)
    requires AllWellFormed(m) && AllWellFormed(made) && m' == m - multiset{t} + made
    ensures AllWellFormed(m')
  {
    hide WellFormed;
  }

  // The bookkeeping of one step, over any bags.
  lemma Settle<T(!new)>(all': multiset<T>, all: multiset<T>, made: multiset<T>, due: multiset<T>,
                        t: multiset<T>, log: multiset<T>, given: multiset<T>)
    requires all' + (t + due) == all + made && made <= due
    ensures (log + t) + all' + (given + (due - made)) == log + all + given
  {
    forall x ensures ((log + t) + all' + (given + (due - made)))[x] == (log + all + given)[x] {
      assert (all' + (t + due))[x] == (all + made)[x];
      assert made[x] <= due[x];
    }
  }

  // Conservation, over every run from any well-formed state.
  lemma {:induction false} Conserved(s: System, acts: seq<Action>)
    requires AllWellFormed(Config(s))
    ensures Balanced(Books(s, acts), Run(s, acts), ExpandAll(Config(s)))
    decreases |acts|
  {
    hide Balanced, Record, Apply;
    if acts == [] {
      NothingYet(s);
    } else {
      var before := acts[..|acts| - 1];
      Conserved(s, before);
      StepBalanced(Books(s, before), Run(s, before), acts[|acts| - 1], ExpandAll(Config(s)));
    }
  }

  lemma NothingYet(s: System)
    requires AllWellFormed(Config(s))
    ensures Balanced(Book(multiset{}, multiset{}, 0), s, ExpandAll(Config(s)))
  {
  }
}
