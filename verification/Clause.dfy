// src/clause.cc and include/clause.h: a clause unit turns one task into reads of
// the clause in chunks of 16, one value read per literal, one write of the
// clause and, when the clause implies an assignment, that assignment.
module Clause {
  import opened Forest
  import opened Queues
  import opened Tokens

  // `ongoing` is on_going_requests. `lost` is not a field of the source: it
  // counts the clauses whose last data response was thrown away.
  datatype State = State(q: Queues, inflight: int, ongoing: int, lost: nat)

  datatype Stage = ProcessToOut | ValueToMem | DataToMem | MemIn | TaskToData

  const DATA_SIZE: nat := 64
  const PROCESS_SIZE: nat := 64

  function Fresh(): Queues {
    map[CTask := [], CData := [], CValue := [], CProc := [], COut := [], CResp := [],
        CGen := [], CWrite := []]
  }

  function Source(s: Stage): Place
  {
    match s
    case ProcessToOut => CProc
    case ValueToMem => CValue
    case DataToMem => CData
    case MemIn => CResp
    case TaskToData => CTask
  }

  // The branch that MemIn takes. A data response that finds the value queue
  // full is not held back: it falls into the branch for value responses.
  datatype Branch = AsData | AsValue | Stalled

  function MemBranch(u: State, r: Req): Branch
  {
    if r.kind.ReadClauseData? && |Get(u.q, CValue)| < DATA_SIZE then AsData
    else if |Get(u.q, CProc)| < PROCESS_SIZE then AsValue
    else Stalled
  }

  predicate Idle(s: Stage, u: State)
  {
    || Get(u.q, Source(s)) == []
    || (s.TaskToData? && |Get(u.q, CData)| >= DATA_SIZE)
    || (s.MemIn? && MemBranch(u, Get(u.q, CResp)[0]).Stalled?)
  }

  function Puts(s: Stage, u: State, r: Req): seq<Put>
  {
    var m := Literals(r.a, r.w);
    match s
    case ProcessToOut =>
      if r.c + 1 < m then [Again(CProc, r.(c := r.c + 1))]
      else if Child(r.a, r.w).Implies?
      then [Back(CGen, Req(ReadWatcherMetaData, Child(r.a, r.w).child, 0, 0)), Back(CWrite, r)]
      else [Back(CWrite, r)]
    case ValueToMem =>
      Issue(Back(COut, r.(kind := ReadClauseValue)), r.c + 1 >= m, CValue, r.(c := r.c + 1))
    case DataToMem =>
      Issue(Back(COut, r.(kind := ReadClauseData)), r.c + CHUNK >= m, CData, r.(c := r.c + CHUNK))
    case MemIn =>
      if MemBranch(u, r).AsData? then
        (if r.c + CHUNK >= m then [Back(CValue, r.(kind := ReadClauseValue, c := 0))] else [])
      else
        (if r.c + 1 >= m then [Back(CProc, r.(c := 0))] else [])
    case TaskToData => [Back(CData, r.(kind := ReadClauseData, c := 0))]
  }

  // The last chunk of a clause met the full value queue.
  predicate FallsThrough(s: Stage, u: State)
  {
    && s.MemIn? && !Idle(s, u)
    && var r := Get(u.q, CResp)[0];
       && r.kind.ReadClauseData? && MemBranch(u, r).AsValue?
       && r.c + CHUNK >= Literals(r.a, r.w)
  }

  // Then the clause is dropped, unless that chunk starts at its last literal:
  // a clause like that goes on without its value reads.
  predicate Drops(s: Stage, u: State)
  {
    && FallsThrough(s, u)
    && var r := Get(u.q, CResp)[0]; r.c + 1 < Literals(r.a, r.w)
  }

  function Started(s: Stage, r: Req): int
  {
    if s.TaskToData? then 1
    else if s.ProcessToOut? && r.c + 1 >= Literals(r.a, r.w) then -1
    else 0
  }

  function Step(s: Stage, u: State): State
  {
    if Idle(s, u) then u
    else
      var r := Get(u.q, Source(s))[0];
      State(PutAll(Pop(u.q, Source(s)), Puts(s, u, r)),
            u.inflight + Started(s, r),
            u.ongoing,
            u.lost + if Drops(s, u) then 1 else 0)
  }

  // One do_cycle: the five stages in their order.
  function Cycle(u: State): State {
    Step(TaskToData, Step(MemIn, Step(DataToMem, Step(ValueToMem, Step(ProcessToOut, u)))))
  }

  // A response waits exactly when processing is full and it cannot go to the
  // values either; a task exactly when the data queue is full; nothing else does.
  lemma WaitsIff(s: Stage, u: State)
    requires Get(u.q, Source(s)) != []
    ensures Idle(s, u) <==>
      || (s.TaskToData? && |Get(u.q, CData)| >= 64)
      || (s.MemIn? && |Get(u.q, CProc)| >= 64
          && (Get(u.q, CResp)[0].kind.ReadClauseData? ==> |Get(u.q, CValue)| >= 64))
    ensures Idle(s, u) ==> Step(s, u) == u
  {
  }

  // What a stage puts is what Succ says of the token it took, exactly when the
  // token did not fall through.
  lemma PutsAreSucc(s: Stage, u: State)
    requires !Idle(s, u)
    ensures var r := Get(u.q, Source(s))[0];
            && |Puts(s, u, r)| <= 3
            && (PutToks(Puts(s, u, r)) == Succ(Tok(Source(s), r)) <==> !FallsThrough(s, u))
  {
    var r := Get(u.q, Source(s))[0];
    if FallsThrough(s, u) { FallenPuts(s, u); }
  }

  // What becomes of a token that falls through: nothing, or the clause goes
  // straight to processing.
  lemma FallenPuts(s: Stage, u: State)
    requires FallsThrough(s, u)
    ensures var r := Get(u.q, CResp)[0];
            && Succ(Tok(CResp, r)) == [At(CValue, r.a, r.w, 0)]
            && PutToks(Puts(s, u, r)) == (if Drops(s, u) then [] else [At(CProc, r.a, r.w, 0)])
  {
  }

  lemma StageFires(s: Stage, u: State)
    requires !Idle(s, u)
    ensures var r := Get(u.q, Source(s))[0];
            Fires(Held(u.q), Tok(Source(s), r), PutToks(Puts(s, u, r)), Held(Step(s, u).q))
  {
    hide Fires, Puts, PutToks, PutAll;
    PutsAreSucc(s, u);
    TakeFires(u.q, Source(s), Puts(s, u, Get(u.q, Source(s))[0]));
  }

  // An assignment whose only watcher reads a clause of m literals, the request
  // for it, and a unit whose value queue is full when that data arrives.
  function OneClause(m: nat): Req {
    Req(ReadClauseData, Assign(1, [Entry(true, m, false, Null, None)]), 0, 0)
  }

  function FullUnit(m: nat): State {
    State(Fresh()[CValue := seq(DATA_SIZE, _ => OneClause(m))][CResp := [OneClause(m)]], DATA_SIZE + 1, 0, 0)
  }

  // A clause of two literals is dropped there: no queue holds it afterwards,
  // and current_inflight_request still counts it.
  lemma TwoLiteralsDropped()
    ensures var u := FullUnit(2);
            && Drops(MemIn, u)
            && Step(MemIn, u) == u.(q := u.q[CResp := []], lost := 1)
  {
    var u := FullUnit(2);
    assert Get(u.q, CResp) == [OneClause(2)] && |Get(u.q, CValue)| == DATA_SIZE;
    assert Pop(u.q, CResp) == u.q[CResp := []];
  }

  // A clause of one literal goes on to be processed without its value read.
  lemma OneLiteralSkips()
    ensures var u := FullUnit(1);
            && FallsThrough(MemIn, u) && !Drops(MemIn, u)
            && Get(Step(MemIn, u).q, CProc) == [OneClause(1)]
            && Get(Step(MemIn, u).q, CValue) == Get(u.q, CValue)
  {
    var u := FullUnit(1);
    assert Get(u.q, CResp) == [OneClause(1)] && |Get(u.q, CValue)| == DATA_SIZE;
    assert OneClause(1).(c := 0) == OneClause(1);
  }
}
