// The fall-through of the clause unit happens: with clauses of 16 literals, one
// new task a cycle, and a memory that takes one read a cycle, front first, and
// answers it by the next cycle, do_cycle itself fills the value queue and then
// drops a clause.
module Overflow {
  import opened Arithmetic
  import opened Clause
  import opened Forest
  import opened Queues
  import opened Tokens

  // The request for a clause of 16 literals, for its data and for its values.
  function Task(): Req { OneClause(16) }
  function Values(c: nat): Req { OneClause(16).(kind := ReadClauseValue, c := c) }

  // The memory takes the front read and answers it: on_going_requests rises and
  // falls by one.
  function Answer(u: State): State {
    var sent := Get(u.q, COut);
    if sent == [] then u else u.(q := u.q[COut := sent[1..]][CResp := Get(u.q, CResp) + [sent[0]]])
  }

  function NewTask(u: State): State { u.(q := Push(u.q, CTask, Task())) }

  function Round(u: State): State { NewTask(Answer(Cycle(u))) }

  function Rounds(t: nat): State {
    if t == 0 then NewTask(State(Fresh(), 0, 0, 0)) else Round(Rounds(t - 1))
  }

  // n clauses wait for their values, the first of them at literal c.
  function Queue(n: nat, c: nat): seq<Req> {
    if n == 0 then [] else [Values(c)] + seq(n - 1, _ => Values(0))
  }

  // Reads on their way out: k times a value and a chunk, from literal c on.
  function Pairs(c: nat, k: nat): seq<Req>
    decreases k
  {
    if k == 0 then [] else [Values(c), Task()] + Pairs((c + 1) % 16, k - 1)
  }

  lemma {:induction false} PairsAdd(c: nat, k: nat)
    requires c < 16
    ensures Pairs(c, k) + [Values((c + k) % 16), Task()] == Pairs(c, k + 1)
    decreases k
  {
    if k == 0 {
      assert Pairs((c + 1) % 16, 0) == [];
    } else {
      hide Values, Task;
      PairsAdd((c + 1) % 16, k - 1);
      ModOfSum(c + 1, k - 1, 16);
      var rest := Pairs((c + 1) % 16, k - 1);
      assert Pairs(c, k) == [Values(c), Task()] + rest;
      assert [Values(c), Task()] + rest + [Values((c + k) % 16), Task()]
          == [Values(c), Task()] + (rest + [Values((c + k) % 16), Task()]);
    }
  }

  // A stage that touches the queues of ps only, and loses nothing.
  predicate Touches(u: State, v: State, ps: set<Place>)
  {
    v.lost == u.lost && forall p :: p !in ps ==> Get(v.q, p) == Get(u.q, p)
  }

  lemma OneBack(q: Queues, p: Place, p': Place, r: Req)
    requires p != p' && Get(q, p) != []
    ensures var q' := PutAll(Pop(q, p), [Back(p', r)]);
            && Get(q', p) == Get(q, p)[1..] && Get(q', p') == Get(q, p') + [r]
            && forall p'' :: p'' != p && p'' != p' ==> Get(q', p'') == Get(q, p'')
  {
  }

  lemma ProcessStage(u: State)
    ensures var v := Step(ProcessToOut, u);
            Touches(u, v, {CProc, CGen, CWrite}) && |Get(v.q, CProc)| <= |Get(u.q, CProc)|
  {
  }

  // What the stages put here.
  lemma PutsHere(u: State, c: nat)
    ensures Puts(ValueToMem, u, Values(c))
         == if c + 1 >= 16 then [Back(COut, Values(c))] else [Back(COut, Values(c)), Again(CValue, Values(c + 1))]
    ensures Puts(DataToMem, u, Task()) == [Back(COut, Task())]
    ensures Puts(TaskToData, u, Task()) == [Back(CData, Task())]
    ensures |Get(u.q, CValue)| < DATA_SIZE ==> Puts(MemIn, u, Task()) == [Back(CValue, Values(0))]
    ensures Puts(MemIn, u, Values(c)) == if c + 1 >= 16 then [Back(CProc, Values(0))] else []
  {
  }

  lemma ValueStage(u: State, n: nat, c: nat)
    requires c < 16 && n > 0 && Get(u.q, CValue) == Queue(n, c)
    ensures var v := Step(ValueToMem, u);
            && Touches(u, v, {CValue, COut})
            && Get(v.q, COut) == Get(u.q, COut) + [Values(c)]
            && Get(v.q, CValue) == if c < 15 then Queue(n, c + 1) else Queue(n - 1, 0)
  {
    var q := Queue(n, c);
    PutsHere(u, c);
    assert !Drops(ValueToMem, u);
    hide Puts, Values, Drops;
    assert q[0] == Values(c) && q[1..] == seq(n - 1, _ => Values(0)) == Queue(n - 1, 0);
    assert [Values(c + 1)] + q[1..] == Queue(n, c + 1);
  }

  lemma DataStage(u: State)
    requires Get(u.q, CData) == [Task()]
    ensures var v := Step(DataToMem, u);
            Touches(u, v, {CData, COut}) && Get(v.q, CData) == [] && Get(v.q, COut) == Get(u.q, COut) + [Task()]
  {
    PutsHere(u, 0);
    OneBack(u.q, CData, COut, Task());
    hide Puts, Task, PutAll;
    assert [Task()][1..] == [];
  }

  lemma MemStage(u: State)
    requires Get(u.q, CResp) == [Task()] && |Get(u.q, CValue)| < DATA_SIZE
    ensures var v := Step(MemIn, u);
            && Touches(u, v, {CResp, CValue})
            && Get(v.q, CResp) == [] && Get(v.q, CValue) == Get(u.q, CValue) + [Values(0)]
  {
    PutsHere(u, 0);
    OneBack(u.q, CResp, CValue, Values(0));
    assert !Drops(MemIn, u) && !Idle(MemIn, u);
    hide Puts, Task, Values, PutAll, Drops;
    assert [Task()][1..] == [];
  }

  lemma ValueResponse(u: State, c: nat)
    requires Get(u.q, CResp) == [Values(c)] && |Get(u.q, CProc)| < PROCESS_SIZE
    ensures var v := Step(MemIn, u);
            && Touches(u, v, {CResp, CProc}) && Get(v.q, CResp) == []
            && |Get(v.q, CProc)| == |Get(u.q, CProc)| + if c + 1 >= 16 then 1 else 0
  {
    PutsHere(u, c);
    OneBack(u.q, CResp, CProc, Values(0));
    assert !Drops(MemIn, u) && !Idle(MemIn, u);
    hide Puts, Values, Drops;
    assert [Values(c)][1..] == [];
  }

  lemma TaskStage(u: State)
    requires Get(u.q, CTask) == [Task()] && Get(u.q, CData) == []
    ensures var v := Step(TaskToData, u);
            Touches(u, v, {CTask, CData}) && Get(v.q, CTask) == [] && Get(v.q, CData) == [Task()]
  {
    PutsHere(u, 0);
    OneBack(u.q, CTask, CData, Task());
    assert !Idle(TaskToData, u);
    hide Puts, Task, PutAll;
    assert [Task()][1..] == [] && [] + [Task()] == [Task()];
  }

  // A unit between two cycles: a task and a chunk are due, `value` waits for its
  // values, `out` is on its way out, resp has come back, and at most k clauses
  // are being processed.
  predicate Between(u: State, value: seq<Req>, out: seq<Req>, resp: Req, k: nat)
  {
    && u.lost == 0
    && Get(u.q, CTask) == [Task()] && Get(u.q, CData) == [Task()]
    && Get(u.q, CValue) == value && Get(u.q, COut) == out && Get(u.q, CResp) == [resp]
    && |Get(u.q, CProc)| <= k
  }

  lemma EndOfRound(u: State, out: seq<Req>)
    requires Get(u.q, CTask) == [] && Get(u.q, CResp) == [] && Get(u.q, COut) == out && out != []
    ensures var v := NewTask(Answer(u));
            && Touches(u, v, {CTask, CResp, COut})
            && Get(v.q, CTask) == [Task()] && Get(v.q, CResp) == [out[0]] && Get(v.q, COut) == out[1..]
  {
    hide Task;
    assert [] + [Task()] == [Task()] && [] + [out[0]] == [out[0]];
  }

  // A round that starts with a chunk come back.
  lemma ChunkRound(u: State, n: nat, c: nat, out: seq<Req>, k: nat)
    requires c < 15 && 0 < n < DATA_SIZE && Between(u, Queue(n, c), out, Task(), k)
    ensures var all := out + [Values(c)] + [Task()];
            Between(Round(u), Queue(n + 1, c + 1), all[1..], all[0], k)
  {
    hide Task, Values, Step, NewTask, Answer;
    var u1 := Step(ProcessToOut, u);
    var u2 := Step(ValueToMem, u1);
    var u3 := Step(DataToMem, u2);
    var u4 := Step(MemIn, u3);
    ProcessStage(u);
    ValueStage(u1, n, c);
    DataStage(u2);
    QueueLength(n, c + 1);
    MemStage(u3);
    TaskStage(u4);
    QueueAdd(n, c + 1);
    EndOfRound(Step(TaskToData, u4), out + [Values(c)] + [Task()]);
  }

  // A round that starts with value b come back.
  lemma ValueRound(u: State, n: nat, c: nat, out: seq<Req>, b: nat, k: nat)
    requires c < 16 && 0 < n && k < PROCESS_SIZE && Between(u, Queue(n, c), out, Values(b), k)
    ensures var all := out + [Values(c)] + [Task()];
            Between(Round(u), if c < 15 then Queue(n, c + 1) else Queue(n - 1, 0), all[1..], all[0],
                    k + if b + 1 >= 16 then 1 else 0)
  {
    hide Task, Values, Step, NewTask, Answer, Queue;
    var u1 := Step(ProcessToOut, u);
    var u2 := Step(ValueToMem, u1);
    var u3 := Step(DataToMem, u2);
    var u4 := Step(MemIn, u3);
    ProcessStage(u);
    ValueStage(u1, n, c);
    DataStage(u2);
    ValueResponse(u3, b);
    TaskStage(u4);
    EndOfRound(Step(TaskToData, u4), out + [Values(c)] + [Task()]);
  }

  lemma QueueLength(n: nat, c: nat)
    ensures |Queue(n, c)| == n
  {
  }

  lemma QueueAdd(n: nat, c: nat)
    requires n > 0
    ensures Queue(n, c) + [Values(0)] == Queue(n + 1, c)
  {
  }

  lemma EvenLap(u: State, n: nat, c: nat, c0: nat, k: nat, p: nat)
    requires c < 15 && c0 < 16 && c == (c0 + k) % 16 && 0 < n < DATA_SIZE
    requires Between(u, Queue(n, c), Pairs(c0, k), Task(), p)
    ensures Between(Round(u), Queue(n + 1, c + 1), [Task()] + Pairs((c0 + 1) % 16, k), Values(c0), p)
  {
    PairsAdd(c0, k);
    var all := Pairs(c0, k) + [Values(c)] + [Task()];
    assert all == Pairs(c0, k + 1) == [Values(c0)] + ([Task()] + Pairs((c0 + 1) % 16, k));
    hide Between, Round, Pairs, Queue, Task, Values;
    ChunkRound(u, n, c, Pairs(c0, k), p);
    assert all[1..] == [Task()] + Pairs((c0 + 1) % 16, k);
  }

  lemma OddLap(u: State, n: nat, c: nat, c0: nat, k: nat, b: nat, p: nat)
    requires c < 16 && c0 < 16 && c == (c0 + k) % 16 && 0 < n && p < PROCESS_SIZE
    requires Between(u, Queue(n, c), [Task()] + Pairs(c0, k), Values(b), p)
    ensures Between(Round(u), if c < 15 then Queue(n, c + 1) else Queue(n - 1, 0), Pairs(c0, k + 1), Task(),
                    p + if b + 1 >= 16 then 1 else 0)
  {
    PairsAdd(c0, k);
    hide Between, Round, Pairs, Queue, Task, Values;
    var ps := Pairs(c0, k);
    var all := [Task()] + ps + [Values(c)] + [Task()];
    assert all == [Task()] + (ps + [Values(c), Task()]);
    ValueRound(u, n, c, [Task()] + ps, b, p);
    assert all[1..] == Pairs(c0, k + 1);
  }

  // The cursor of the first clause after 2i rounds, and how many have left.
  function Cursor2(i: nat): nat { 2 * (i % 8) }
  function Gone(i: nat): nat { i / 8 }

  lemma CursorNumbers(i: nat)
    ensures (i % 16 + i) % 16 == Cursor2(i) < 15
    ensures ((i % 16 + 1) % 16 + i) % 16 == Cursor2(i) + 1
    ensures (i % 16 + 1) % 16 == (i + 1) % 16
  {
    var h, l := i / 16, i % 16;
    DivParts(i, 16);
    ModAdd(h, 2 * l, 16);
    ModAdd(h, 2 * l + 1, 16);
    ModAdd(2 * h, l, 8);
    ModOfSum(l + 1, i, 16);
    ModOfSum(i, 1, 16);
    Doubled(l);
  }

  lemma Doubled(l: nat)
    requires l < 16
    ensures 2 * l % 16 == 2 * (l % 8) < 15 && (2 * l + 1) % 16 == 2 * (l % 8) + 1
  {
    if l >= 8 {
      assert l % 8 == l - 8;
    }
  }

  lemma Numbers(i: nat)
    ensures i / 16 + (if i % 16 + 1 >= 16 then 1 else 0) == (i + 1) / 16
    ensures Cursor2(i) + 1 < 15 ==> Gone(i + 1) == Gone(i) && Cursor2(i + 1) == Cursor2(i) + 2
    ensures Cursor2(i) + 1 == 15 ==> Gone(i + 1) == Gone(i) + 1 && Cursor2(i + 1) == 0
    ensures Gone(i) <= i
  {
  }

  predicate Swing(u: State, i: nat) {
    Gone(i) <= i && Between(u, Queue(1 + i - Gone(i), Cursor2(i)), Pairs(i % 16, i), Task(), i / 16)
  }

  // Two rounds: a clause more waits, unless the first has just left.
  lemma Lap(u: State, i: nat)
    requires Swing(u, i) && 1 + i - Gone(i) < DATA_SIZE && i < 1000
    ensures Swing(Round(Round(u)), i + 1)
  {
    hide Between, Round, Pairs, Queue, Task, Values, Cursor2, Gone;
    Numbers(i);
    CursorNumbers(i);
    var n, c := 1 + i - Gone(i), Cursor2(i);
    EvenLap(u, n, c, i % 16, i, i / 16);
    OddLap(Round(u), n + 1, c + 1, (i % 16 + 1) % 16, i, i % 16, i / 16);
  }

  // The first three rounds fill the stages one by one.
  lemma StageIdle(st: Stage, u: State)
    requires Get(u.q, Source(st)) == []
    ensures Step(st, u) == u
  {
  }

  // A unit with the given queues on the way in, and nothing else.
  predicate Filling(u: State, task: seq<Req>, data: seq<Req>, out: seq<Req>, resp: seq<Req>)
  {
    && u.lost == 0
    && Get(u.q, CTask) == task && Get(u.q, CData) == data && Get(u.q, COut) == out && Get(u.q, CResp) == resp
    && Get(u.q, CValue) == [] && Get(u.q, CProc) == []
  }

  lemma NoAnswer(u: State)
    requires Get(u.q, CTask) == [] && Get(u.q, COut) == []
    ensures var v := NewTask(Answer(u)); Touches(u, v, {CTask}) && Get(v.q, CTask) == [Task()]
  {
    hide Task;
    assert [] + [Task()] == [Task()];
  }

  lemma ZerothRound()
    ensures Filling(Rounds(0), [Task()], [], [], [])
  {
    hide Task;
    assert [] + [Task()] == [Task()];
  }

  lemma FirstRound(u: State)
    requires Filling(u, [Task()], [], [], [])
    ensures Filling(Round(u), [Task()], [Task()], [], [])
  {
    hide Task, Step, NewTask, Answer;
    StageIdle(ProcessToOut, u);
    StageIdle(ValueToMem, u);
    StageIdle(DataToMem, u);
    StageIdle(MemIn, u);
    TaskStage(u);
    NoAnswer(Step(TaskToData, u));
  }

  lemma SecondRound(u: State)
    requires Filling(u, [Task()], [Task()], [], [])
    ensures Filling(Round(u), [Task()], [Task()], [], [Task()])
  {
    hide Task, Step, NewTask, Answer;
    StageIdle(ProcessToOut, u);
    StageIdle(ValueToMem, u);
    DataStage(u);
    var u1 := Step(DataToMem, u);
    assert [] + [Task()] == [Task()] && [Task()][1..] == [];
    StageIdle(MemIn, u1);
    TaskStage(u1);
    EndOfRound(Step(TaskToData, u1), [Task()]);
  }

  lemma ThirdRound(u: State)
    requires Filling(u, [Task()], [Task()], [], [Task()])
    ensures Swing(Round(u), 0)
  {
    hide Task, Values, Step, NewTask, Answer;
    StageIdle(ProcessToOut, u);
    StageIdle(ValueToMem, u);
    DataStage(u);
    var u1 := Step(DataToMem, u);
    assert [] + [Task()] == [Task()] && [Task()][1..] == [] && [] + [Values(0)] == [Values(0)];
    MemStage(u1);
    var u2 := Step(MemIn, u1);
    TaskStage(u2);
    EndOfRound(Step(TaskToData, u2), [Task()]);
    assert Queue(1, 0) == [Values(0)];
    assert Pairs(0, 0) == [];
  }

  // Seven clauses wait more after every sixteen rounds.
  lemma {:induction false} Fill(i: nat)
    requires i <= 71
    ensures Swing(Rounds(3 + 2 * i), i)
    decreases i
  {
    hide Round, Swing, Filling;
    if i == 0 {
      ZerothRound();
      FirstRound(Rounds(0));
      SecondRound(Rounds(1));
      ThirdRound(Rounds(2));
    } else {
      Fill(i - 1);
      Lap(Rounds(3 + 2 * (i - 1)), i - 1);
      assert Rounds(3 + 2 * i) == Round(Rounds(3 + 2 * (i - 1) + 1));
    }
  }

  // In cycle 146 the clause that comes back is dropped: it is in no queue any
  // more, and current_inflight_request will count it for ever.
  lemma CycleDrops()
    ensures var v := Step(DataToMem, Step(ValueToMem, Step(ProcessToOut, Rounds(145))));
            Drops(MemIn, v) && Cycle(Rounds(145)).lost == 1
  {
    hide Step, Rounds, Task, Values, Drops, Queue, Pairs;
    Fill(71);
    var u := Rounds(145);
    ProcessStage(u);
    ValueStage(Step(ProcessToOut, u), 64, 14);
    DataStage(Step(ValueToMem, Step(ProcessToOut, u)));
    QueueLength(64, 15);
    FullDrops(Step(DataToMem, Step(ValueToMem, Step(ProcessToOut, u))));
  }

  lemma FullDrops(v: State)
    requires Get(v.q, CResp) == [Task()] && |Get(v.q, CValue)| >= DATA_SIZE && |Get(v.q, CProc)| < PROCESS_SIZE
    ensures Drops(MemIn, v)
    ensures Step(TaskToData, Step(MemIn, v)).lost == v.lost + 1
  {
  }
}
