// The miss table agrees with the reservations of the cache and with the fetches
// under way; each read that is accepted is answered exactly once, at its own
// partition; writes are never answered.
module MissTable {
  import opened Bags
  import opened Forest
  import opened Cache
  import M = Memory

  // The blocks being fetched, once per fetch: reads in the miss queue, in the
  // DRAM, and back from it.
  ghost function Outstanding(s: State): multiset<nat> {
    M.ReadsOf(s.missQ) + M.Reads(s.mem) + multiset(s.respQ)
  }

  // addr_to_req: no list is empty, and every request in one reads its block.
  ghost predicate Listed(s: State) {
    forall b :: b in s.waiting ==>
      && s.waiting[b] != []
      && (forall k :: 0 <= k < |s.waiting[b]| ==> Block(s.waiting[b][k].addr) == b)
  }

  ghost predicate Reserved(s: State)
    requires Shape(s)
  {
    forall i, b :: 0 <= i < |s.reserved| ==>
      (b in s.reserved[i] <==> b in s.waiting && Part(b, |s.reserved|) == i)
  }

  ghost predicate Owned(s: State)
    requires Shape(s)
  {
    forall i, k :: 0 <= i < |s.ins| && 0 <= k < |s.ins[i]| ==> Part(Block(s.ins[i][k].addr), |s.ins|) == i
  }

  ghost predicate Table(s: State)
    requires Shape(s)
  {
    Listed(s) && Reserved(s) && Owned(s) && Outstanding(s) == multiset(s.waiting.Keys)
  }

  // What went in and came out so far, how many writes were sent to the DRAM, the
  // dirty blocks that the cache named when it evicted them, and the addresses of
  // the writes that the DRAM has called back.
  datatype History = History(
    accepted: seq<multiset<Access>>, taken: seq<multiset<Access>>, writesSent: nat,
    victims: multiset<nat>, written: multiset<nat>)

  ghost function ReadOnly(x: Access): multiset<Access> { if x.write then multiset{} else multiset{x} }

  ghost function ReadsIn(q: seq<Access>): multiset<Access> { Gather(ReadOnly, multiset(q)) }

  function Untimed(q: seq<Timed>): seq<Access> {
    seq(|q|, k requires 0 <= k < |q| => q[k].x)
  }

  // All that wait in the table for a block of partition i of n.
  ghost function WaitingAt(w: map<nat, seq<Access>>, n: nat, i: nat): multiset<Access>
    requires n > 0
    decreases |w|
  {
    if w == map[] then multiset{}
    else
      SomeKey(w);
      var b :| b in w.Keys;
      (if Part(b, n) == i then multiset(w[b]) else multiset{}) + WaitingAt(w - {b}, n, i)
  }

  lemma SomeKey<V>(m: map<nat, V>)
    requires m != map[]
    ensures exists k :: k in m.Keys
  {
    var k := Member(m.Keys);
    assert k in m.Keys;
  }

  // The reads that are somewhere between the ports of partition i.
  ghost function Between(s: State, i: nat): multiset<Access>
    requires Shape(s) && i < |s.ins|
  {
    ReadsIn(s.ins[i]) + WaitingAt(s.waiting, |s.ins|, i) + multiset(Untimed(s.delays[i])) + multiset(s.outs[i])
  }

  ghost predicate Flow(s: State, h: History)
    requires Shape(s)
  {
    && |h.accepted| == |h.taken| == |s.ins|
    && forall i :: 0 <= i < |s.ins| ==> h.accepted[i] == Between(s, i) + h.taken[i]
  }

  // A victim is on its way to the DRAM, inside it, or written.
  ghost predicate Backs(s: State, h: History) {
    && h.victims == M.WritesOf(s.missQ) + M.Writes(s.mem) + h.written
    && h.writesSent == |M.Writes(s.mem)| + |h.written|
  }

  ghost predicate Inv(s: State, h: History)
    requires Shape(s)
  {
    && Table(s) && Flow(s, h) && Backs(s, h)
    && |s.missQ| <= 65
    && s.parallel == |M.Reads(s.mem)| + h.writesSent
    && M.Sound(s.mem) && !s.failed
  }

  ghost function Note(s: State, h: History, a: Action): History
    requires Shape(s) && |h.accepted| == |h.taken| == |s.ins|
  {
    if !Enabled(s, a) then h
    else match a
      case Arrive(i, x) => h.(accepted := h.accepted[i := h.accepted[i] + ReadOnly(x)])
      case Take(i) => h.(taken := h.taken[i := h.taken[i] + multiset{s.outs[i][0]}])
      case MissToDram => h.(writesSent := h.writesSent + if s.missQ[0].read then 0 else 1)
      case Probe(_, o) => h.(victims := h.victims + Evicted(o))
      case MemCalls(j) =>
        if s.mem.inside[j].read then h else h.(written := h.written + multiset{s.mem.inside[j].addr})
      case _ => h
  }

  // The dirty block that an answer of the cache names.
  ghost function Evicted(o: Outcome): multiset<nat> {
    match o
    case Miss(Some(victim)) => multiset{victim}
    case _ => multiset{}
  }

  lemma WaitingUnfold(w: map<nat, seq<Access>>, n: nat, i: nat) returns (b: nat)
    requires n > 0 && w != map[]
    ensures b in w
    ensures WaitingAt(w, n, i) == (if Part(b, n) == i then multiset(w[b]) else multiset{}) + WaitingAt(w - {b}, n, i)
  {
    hide Part;
    SomeKey(w);
    b :| b in w.Keys
         && WaitingAt(w, n, i) == (if Part(b, n) == i then multiset(w[b]) else multiset{}) + WaitingAt(w - {b}, n, i);
  }

  lemma {:induction false} WaitingPick(w: map<nat, seq<Access>>, n: nat, i: nat, b: nat)
    requires n > 0 && b in w
    ensures WaitingAt(w, n, i) == (if Part(b, n) == i then multiset(w[b]) else multiset{}) + WaitingAt(w - {b}, n, i)
    decreases |w|
  {
    hide Part, WaitingAt;
    var o := WaitingUnfold(w, n, i);
    if o != b {
      WaitingPick(w - {o}, n, i, b);
      WaitingPick(w - {b}, n, i, o);
      var rest := w - {o} - {b};
      assert rest == w - {b} - {o};
      Swap(if Part(o, n) == i then multiset(w[o]) else multiset{},
           if Part(b, n) == i then multiset(w[b]) else multiset{}, WaitingAt(rest, n, i));
    }
  }

  // A request joins the list of block b.
  lemma WaitingJoin(s: State, b: nat, x: Access, i: nat)
    requires Shape(s)
    ensures WaitingAt(s.waiting[b := Waiters(s, b) + [x]], |s.ins|, i)
         == WaitingAt(s.waiting, |s.ins|, i) + if Part(b, |s.ins|) == i then multiset{x} else multiset{}
  {
    hide Part, WaitingAt;
    var w' := s.waiting[b := Waiters(s, b) + [x]];
    WaitingPick(w', |s.ins|, i, b);
    assert w' - {b} == s.waiting - {b};
    if b in s.waiting {
      WaitingPick(s.waiting, |s.ins|, i, b);
    } else {
      assert s.waiting - {b} == s.waiting;
    }
  }

  // The list of block b leaves.
  lemma WaitingLeave(s: State, b: nat, i: nat)
    requires Shape(s) && b in s.waiting
    ensures WaitingAt(s.waiting, |s.ins|, i)
         == WaitingAt(s.waiting - {b}, |s.ins|, i)
            + if Part(b, |s.ins|) == i then multiset(s.waiting[b]) else multiset{}
  {
    hide Part, WaitingAt;
    WaitingPick(s.waiting, |s.ins|, i, b);
  }

  lemma ReadsInAdd(q: seq<Access>, x: Access)
    ensures ReadsIn(q + [x]) == ReadsIn(q) + ReadOnly(x)
  {
    GatherAdd(ReadOnly, multiset(q), x);
    assert multiset(q + [x]) == multiset(q) + multiset{x};
  }

  lemma ReadsInTail(q: seq<Access>)
    requires q != []
    ensures ReadsIn(q) == ReadsIn(q[1..]) + ReadOnly(q[0])
  {
    ReadsInAdd(q[1..], q[0]);
    assert q == [q[0]] + q[1..];
    assert multiset(q[1..] + [q[0]]) == multiset(q);
  }

  lemma UntimedAdd(q: seq<Timed>, p: seq<Timed>)
    ensures Untimed(q + p) == Untimed(q) + Untimed(p)
  {
  }

  lemma StampUntimed(now: nat, xs: seq<Access>)
    ensures Untimed(Stamp(now, xs)) == xs
  {
  }

  lemma UntimedTail(q: seq<Timed>)
    requires q != []
    ensures Untimed(q) == [q[0].x] + Untimed(q[1..])
  {
  }

  // One request is tried at the cache.
  lemma ProbeTable(s: State, i: nat, o: Outcome)
    requires Shape(s) && Table(s) && Enabled(s, Probe(i, o)) && Legal(s, Probe(i, o))
    ensures Table(ProbeStep(s, i, o)) && ProbeStep(s, i, o).failed == s.failed
  {
    hide Block, Part, M.ReadsOf, M.Reads, Table;
    var x := s.ins[i][0];
    if !o.ResFail? {
      LeaveTable(s, i);
      var s' := s.(ins := s.ins[i := s.ins[i][1..]]);
      if x.write {
        BackTable(s', if o.Miss? then o.dirty else None);
      } else if o.Hit? {
        TableAside(s', ProbeStep(s, i, o));
      } else if o.HitReserved? {
        HitReservedTable(s', i, x);
      } else {
        BackTable(s', o.dirty);
        MissKeepsTable(s'.(missQ := s.missQ + WriteBack(o.dirty)), i, x);
      }
    }
  }

  lemma LeaveTable(s: State, i: nat)
    requires Shape(s) && Table(s) && i < |s.ins| && s.ins[i] != []
    ensures Table(s.(ins := s.ins[i := s.ins[i][1..]]))
    ensures Part(Block(s.ins[i][0].addr), |s.ins|) == i
  {
    hide Block, Part, Outstanding;
    var s' := s.(ins := s.ins[i := s.ins[i][1..]]);
    OutstandingAside(s, s');
  }

  lemma BackTable(s: State, dirty: Option<nat>)
    requires Shape(s) && Table(s)
    ensures Table(s.(missQ := s.missQ + WriteBack(dirty))) && Table(s.(missQ := s.missQ + []))
  {
    hide Block, Part, M.ReadsOf, M.Reads;
    ReadsOfBack(s.missQ, dirty);
  }

  lemma HitReservedTable(s: State, i: nat, x: Access)
    requires Shape(s) && Table(s) && i < |s.reserved| && Block(x.addr) in s.reserved[i]
    ensures Waiters(s, Block(x.addr)) != []
    ensures Table(s.(waiting := s.waiting[Block(x.addr) := Waiters(s, Block(x.addr)) + [x]]))
  {
    hide Block, Part, Outstanding;
    var b := Block(x.addr);
    assert b in s.waiting;
    var s' := s.(waiting := s.waiting[b := Waiters(s, b) + [x]]);
    OutstandingAside(s, s');
    assert s'.waiting.Keys == s.waiting.Keys;
  }

  lemma MissKeepsTable(s: State, i: nat, x: Access)
    requires Shape(s) && Table(s) && i < |s.reserved| && Block(x.addr) !in s.reserved[i]
    requires Part(Block(x.addr), |s.reserved|) == i
    ensures Waiters(s, Block(x.addr)) == []
    ensures Table(s.(waiting := s.waiting[Block(x.addr) := Waiters(s, Block(x.addr)) + [x]],
                     missQ := s.missQ + [M.Fetch(true, Block(x.addr))],
                     reserved := s.reserved[i := s.reserved[i] + {Block(x.addr)}]))
  {
    hide Block, Part, M.ReadsOf, M.Reads;
    var b := Block(x.addr);
    assert b !in s.waiting;
    M.ReadsOfAdd(s.missQ, M.Fetch(true, b));
    KeysAdd(s.waiting, b, Waiters(s, b) + [x]);
  }

  lemma ReadsOfBack(q: seq<M.Fetch>, dirty: Option<nat>)
    ensures M.ReadsOf(q + WriteBack(dirty)) == M.ReadsOf(q)
    ensures M.ReadsOf(q + []) == M.ReadsOf(q)
  {
    hide M.ReadsOf;
    assert q + [] == q;
    if dirty.Some? { M.ReadsOfAdd(q, M.Fetch(false, dirty.value)); }
  }

  lemma KeysAdd<V>(w: map<nat, V>, b: nat, v: V)
    requires b !in w
    ensures multiset(w[b := v].Keys) == multiset(w.Keys) + multiset{b}
  {
    assert w[b := v].Keys == w.Keys + {b};
  }

  lemma KeysDrop<V>(w: map<nat, V>, b: nat)
    requires b in w
    ensures multiset(w.Keys) == multiset((w - {b}).Keys) + multiset{b}
  {
    assert w.Keys == (w - {b}).Keys + {b};
  }

  // The block at the front of the responses is in the table.
  lemma RespListed(s: State)
    requires Shape(s) && Table(s) && s.respQ != []
    ensures s.respQ[0] in s.waiting && Waiters(s, s.respQ[0]) != []
  {
    hide M.ReadsOf, M.Reads, Reserved, Owned;
    assert s.respQ[0] in multiset(s.respQ);
    assert s.respQ[0] in Outstanding(s);
  }

  lemma RespTable(s: State)
    requires Shape(s) && Table(s) && Enabled(s, DramToResp)
    ensures Table(RespStep(s)) && RespStep(s).failed == s.failed
  {
    hide Block, Part, M.ReadsOf, M.Reads;
    RespListed(s);
    var b := s.respQ[0];
    KeysDrop(s.waiting, b);
    assert s.respQ == [b] + s.respQ[1..];
    assert multiset(s.respQ) == multiset{b} + multiset(s.respQ[1..]);
    DropReads(M.ReadsOf(s.missQ) + M.Reads(s.mem), multiset(s.respQ[1..]), b, multiset((s.waiting - {b}).Keys));
  }

  lemma DropReads(a: multiset<nat>, rest: multiset<nat>, b: nat, keys: multiset<nat>)
    requires a + (multiset{b} + rest) == keys + multiset{b}
    ensures a + rest == keys
  {
    assert a + (multiset{b} + rest) == (a + rest) + multiset{b};
    Cancel(a + rest, keys, multiset{b});
  }

  // A fetch moves on towards the response queue.
  lemma FetchMoves(s: State, a: Action)
    requires Shape(s) && Enabled(s, a) && (a.MissToDram? || a.MemAccept? || a.MemCalls? || a.MemDrain?)
    ensures Outstanding(Apply(s, a)) == Outstanding(s)
    ensures M.Sound(s.mem) ==> M.Sound(Apply(s, a).mem)
    ensures |M.Reads(Apply(s, a).mem)| - Apply(s, a).parallel
         == |M.Reads(s.mem)| - s.parallel - if a.MissToDram? && !s.missQ[0].read then 1 else 0
    ensures s.parallel >= |M.Reads(s.mem)| ==> Apply(s, a).failed == s.failed
  {
    hide M.ReadsOf, M.Reads;
    match a
    case MissToDram =>
      M.ReadsOfTail(s.missQ);
      M.SendReads(s.mem, s.missQ[0]);
    case MemAccept => M.AcceptReads(s.mem);
    case MemCalls(j) => M.CallBackReads(s.mem, j);
    case MemDrain =>
      PopReads(s.mem);
      assert multiset(s.respQ + [s.mem.outQ[0]]) == multiset(s.respQ) + multiset{s.mem.outQ[0]};
  }

  lemma PopReads(m: M.State)
    requires m.outQ != []
    ensures M.Reads(m) == M.Reads(M.Pop(m)) + multiset{m.outQ[0]}
  {
    hide M.ReadsOf;
    assert m.outQ == [m.outQ[0]] + m.outQ[1..];
  }

  // The table, after any action.
  lemma TableKept(s: State, h: History, a: Action)
    requires Shape(s) && Inv(s, h) && Enabled(s, a) && Legal(s, a)
    ensures Table(Apply(s, a)) && !Apply(s, a).failed && M.Sound(Apply(s, a).mem)
    ensures Apply(s, a).parallel == |M.Reads(Apply(s, a).mem)| + Note(s, h, a).writesSent
    ensures |Apply(s, a).missQ| <= 65
  {
    hide Block, Part, M.ReadsOf, M.Reads, Flow, Table, Outstanding, Backs, Evicted;
    match a
    case Arrive(i, x) => ArriveTable(s, i, x);
    case Take(i) => TableAside(s, Apply(s, a));
    case Tick => TableAside(s, Apply(s, a));
    case Probe(i, o) => ProbeTable(s, i, o);
    case DramToResp => RespTable(s);
    case DelayToOut(i) => TableAside(s, Apply(s, a));
    case _ =>
      FetchMoves(s, a);
      TableOther(s, Apply(s, a));
  }

  lemma ArriveTable(s: State, i: nat, x: Access)
    requires Shape(s) && Table(s) && Enabled(s, Arrive(i, x)) && Legal(s, Arrive(i, x))
    ensures Table(Apply(s, Arrive(i, x)))
  {
    hide Block, Part, Outstanding;
    var s' := Apply(s, Arrive(i, x));
    assert Outstanding(s') == Outstanding(s) by { OutstandingAside(s, s'); }
  }

  lemma OutstandingAside(s: State, s': State)
    requires s'.missQ == s.missQ && s'.mem == s.mem && s'.respQ == s.respQ
    ensures Outstanding(s') == Outstanding(s)
  {
  }

  lemma TableOther(s: State, s': State)
    requires Shape(s) && Shape(s') && Table(s) && Outstanding(s') == Outstanding(s)
    requires s'.ins == s.ins && s'.waiting == s.waiting && s'.reserved == s.reserved
    ensures Table(s')
  {
    hide Block, Part, Outstanding;
  }

  lemma TableAside(s: State, s': State)
    requires Shape(s) && Shape(s') && Table(s)
    requires s'.missQ == s.missQ && s'.mem == s.mem && s'.respQ == s.respQ
    requires s'.ins == s.ins && s'.waiting == s.waiting && s'.reserved == s.reserved
    ensures Table(s')
  {
    hide Table;
    OutstandingAside(s, s');
    TableOther(s, s');
  }

  // One request leaves partition i for the queues behind it.
  lemma ProbeBetween(s: State, i: nat, o: Outcome, k: nat)
    requires Shape(s) && Owned(s) && Enabled(s, Probe(i, o)) && k < |s.ins|
    requires Shape(ProbeStep(s, i, o))
    ensures Between(ProbeStep(s, i, o), k) == Between(s, k)
  {
    hide Block, Part, WaitingAt, ReadsIn;
    var x := s.ins[i][0];
    if !o.ResFail? {
      ReadsInTail(s.ins[i]);
      if !x.write && o.Hit? {
        UntimedAdd(s.delays[i], [Timed(s.now, x)]);
        assert Untimed([Timed(s.now, x)]) == [x];
      } else if !x.write {
        WaitingJoin(s, Block(x.addr), x, k);
      }
    }
  }

  lemma RespBetween(s: State, k: nat)
    requires Shape(s) && Enabled(s, DramToResp) && s.respQ[0] in s.waiting && k < |s.ins|
    requires Shape(RespStep(s))
    ensures Between(RespStep(s), k) == Between(s, k)
  {
    hide Block, Part, WaitingAt, ReadsIn;
    var b := s.respQ[0];
    var p := Part(b, |s.delays|);
    WaitingLeave(s, b, k);
    UntimedAdd(s.delays[p], Stamp(s.now, Waiters(s, b)));
    StampUntimed(s.now, Waiters(s, b));
  }

  lemma DelayBetween(s: State, i: nat, k: nat)
    requires Shape(s) && Enabled(s, DelayToOut(i)) && k < |s.ins|
    ensures Between(Apply(s, DelayToOut(i)), k) == Between(s, k)
  {
    hide WaitingAt, ReadsIn;
    UntimedTail(s.delays[i]);
  }

  // Only arrivals and departures change what is between the ports.
  lemma QuietBetween(s: State, a: Action, k: nat)
    requires Shape(s) && Table(s) && Enabled(s, a) && !a.Arrive? && !a.Take? && k < |s.ins|
    ensures Between(Apply(s, a), k) == Between(s, k)
  {
    hide Block, Part, WaitingAt, ReadsIn, Outstanding, Between, ProbeStep, RespStep;
    assert Shape(Apply(s, a));
    if a.Probe? {
      ProbeBetween(s, a.i, a.o, k);
    } else if a.DramToResp? {
      RespListed(s);
      RespBetween(s, k);
    } else if a.DelayToOut? {
      DelayBetween(s, a.i, k);
    } else {
      BetweenAside(s, Apply(s, a), k);
    }
  }

  // What is between the ports, after any action.
  lemma FlowKept(s: State, h: History, a: Action)
    requires Shape(s) && Inv(s, h) && Enabled(s, a)
    ensures Flow(Apply(s, a), Note(s, h, a))
  {
    hide Table, Between, Block, Part, ProbeStep, RespStep;
    var s', h' := Apply(s, a), Note(s, h, a);
    forall k | 0 <= k < |s.ins| ensures h'.accepted[k] == Between(s', k) + h'.taken[k] {
      match a
      case Arrive(i, x) => ArriveBetween(s, i, x, k);
      case Take(i) => TakeBetween(s, i, k);
      case _ => QuietBetween(s, a, k);
    }
  }

  // The dirty blocks, after any action.
  lemma BacksKept(s: State, h: History, a: Action)
    requires Shape(s) && Flow(s, h) && Backs(s, h) && Enabled(s, a)
    ensures Backs(Apply(s, a), Note(s, h, a))
  {
    hide Between, M.WritesOf, M.Writes, ProbeStep, RespStep, Evicted;
    if a.Probe? {
      ProbeWrites(s, a.i, a.o);
    } else if a.DramToResp? {
      RespAside(s);
    } else {
      OtherWrites(s, a);
      BacksAlong(s, h, Apply(s, a), Note(s, h, a),
                 M.WriteAddr(if a.MissToDram? then s.missQ[0] else NOTHING),
                 M.WriteAddr(if a.MemCalls? then s.mem.inside[a.j] else NOTHING));
    }
  }

  // `sent` goes to the DRAM, and `back` is called back.
  lemma BacksAlong(s: State, h: History, s': State, h': History, sent: multiset<nat>, back: multiset<nat>)
    requires Backs(s, h) && h'.victims == h.victims
    requires M.WritesOf(s'.missQ) + sent == M.WritesOf(s.missQ)
    requires M.Writes(s'.mem) + back == M.Writes(s.mem) + sent
    requires h'.written == h.written + back && h'.writesSent == h.writesSent + |sent|
    ensures Backs(s', h')
  {
    hide M.WritesOf, M.Writes;
    assert |M.Writes(s'.mem)| + |back| == |M.Writes(s'.mem) + back|;
    calc {
      h'.victims;
      M.WritesOf(s.missQ) + M.Writes(s.mem) + h.written;
      M.WritesOf(s'.missQ) + (M.Writes(s.mem) + sent) + h.written;
      M.WritesOf(s'.missQ) + (M.Writes(s'.mem) + back) + h.written;
      M.WritesOf(s'.missQ) + M.Writes(s'.mem) + h'.written;
    }
  }

  // A write moves on towards the DRAM, and is called back.
  lemma OtherWrites(s: State, a: Action)
    requires Shape(s) && Enabled(s, a) && !a.Probe? && !a.DramToResp?
    ensures M.WritesOf(Apply(s, a).missQ) + M.WriteAddr(if a.MissToDram? then s.missQ[0] else NOTHING)
         == M.WritesOf(s.missQ)
    ensures M.Writes(Apply(s, a).mem) + M.WriteAddr(if a.MemCalls? then s.mem.inside[a.j] else NOTHING)
         == M.Writes(s.mem) + M.WriteAddr(if a.MissToDram? then s.missQ[0] else NOTHING)
  {
    hide M.WritesOf, M.Writes;
    match a
    case MissToDram =>
      M.WritesOfTail(s.missQ);
      SendWrites(s.mem, s.missQ[0]);
    case MemAccept => M.AcceptWrites(s.mem);
    case MemCalls(j) => M.CallBackWrites(s.mem, j);
    case MemDrain => PopWrites(s.mem);
    case _ =>
  }

  const NOTHING: M.Fetch := M.Fetch(true, 0)

  lemma RespAside(s: State)
    requires Shape(s) && Enabled(s, DramToResp)
    ensures RespStep(s).missQ == s.missQ && RespStep(s).mem == s.mem
  {
  }

  lemma ProbeMisses(s: State, i: nat, o: Outcome)
    requires Shape(s) && Enabled(s, Probe(i, o))
    ensures ProbeStep(s, i, o).mem == s.mem
    ensures var q, x := s.missQ + (if o.Miss? then WriteBack(o.dirty) else []), s.ins[i][0];
            ProbeStep(s, i, o).missQ == if o.Miss? && !x.write then q + [M.Fetch(true, Block(x.addr))] else q
  {
    hide Waiters, Block, Part;
  }

  lemma ProbeWrites(s: State, i: nat, o: Outcome)
    requires Shape(s) && Enabled(s, Probe(i, o))
    ensures M.WritesOf(ProbeStep(s, i, o).missQ) == M.WritesOf(s.missQ) + Evicted(o)
    ensures ProbeStep(s, i, o).mem == s.mem
  {
    hide M.WritesOf, Block, Part, ProbeStep;
    var q := s.missQ;
    ProbeMisses(s, i, o);
    assert q + [] == q;
    if o.Miss? {
      var q' := q + WriteBack(o.dirty);
      if o.dirty.Some? { M.WritesOfAdd(q, M.Fetch(false, o.dirty.value)); }
      M.WritesOfAdd(q', M.Fetch(true, Block(s.ins[i][0].addr)));
    }
  }

  lemma SendWrites(m: M.State, f: M.Fetch)
    ensures M.Writes(M.Send(m, f)) == M.Writes(m) + M.WriteAddr(f)
  {
    hide M.WritesOf;
    M.WritesOfAdd(m.inQ, f);
  }

  lemma PopWrites(m: M.State)
    requires m.outQ != []
    ensures M.Writes(M.Pop(m)) == M.Writes(m)
  {
  }

  lemma ArriveBetween(s: State, i: nat, x: Access, k: nat)
    requires Shape(s) && Enabled(s, Arrive(i, x)) && k < |s.ins|
    ensures Between(Apply(s, Arrive(i, x)), k) == Between(s, k) + if k == i then ReadOnly(x) else multiset{}
  {
    hide WaitingAt, ReadsIn;
    ReadsInAdd(s.ins[i], x);
  }

  lemma TakeBetween(s: State, i: nat, k: nat)
    requires Shape(s) && Enabled(s, Take(i)) && k < |s.ins|
    ensures Between(s, k) == Between(Apply(s, Take(i)), k) + if k == i then multiset{s.outs[i][0]} else multiset{}
  {
    hide WaitingAt, ReadsIn;
    assert s.outs[i] == [s.outs[i][0]] + s.outs[i][1..];
  }

  lemma BetweenAside(s: State, s': State, k: nat)
    requires Shape(s) && Shape(s') && k < |s.ins| && s'.ins == s.ins && s'.waiting == s.waiting
    requires s'.delays == s.delays && s'.outs == s.outs
    ensures Between(s', k) == Between(s, k)
  {
  }

  ghost function NoHistory(n: nat): History {
    History(seq(n, _ => multiset{}), seq(n, _ => multiset{}), 0, multiset{}, multiset{})
  }

  ghost function Notes(s: State, acts: seq<Action>): (h: History)
    requires Shape(s)
    ensures |h.accepted| == |h.taken| == |s.ins|
    decreases |acts|
  {
    if acts == [] then NoHistory(|s.ins|)
    else
      var before := acts[..|acts| - 1];
      Note(Run(s, before), Notes(s, before), acts[|acts| - 1])
  }

  lemma StartInv(n: nat)
    requires n > 0
    ensures Inv(Start(n), NoHistory(n))
  {
    M.ReadsOfNone();
    M.WritesOfNone();
    hide M.ReadsOf, M.WritesOf;
    assert Untimed([]) == [];
    forall i: nat | i < n ensures Between(Start(n), i) == multiset{} {
      GatherNone(ReadOnly);
    }
  }

  // In every run with legal surroundings the table agrees with the cache and
  // the fetches, reads are conserved at each partition, and no assert fails.
  lemma {:induction false} RunKeeps(n: nat, acts: seq<Action>)
    requires n > 0 && Proper(Start(n), acts)
    ensures Inv(Run(Start(n), acts), Notes(Start(n), acts))
    decreases |acts|
  {
    hide Start, NoHistory, Inv, Apply, Legal, Enabled, Note;
    if acts == [] {
      StartInv(n);
    } else {
      var before, a := acts[..|acts| - 1], acts[|acts| - 1];
      RunKeeps(n, before);
      StepKeeps(Run(Start(n), before), Notes(Start(n), before), a);
    }
  }

  lemma StepKeeps(s: State, h: History, a: Action)
    requires Shape(s) && Inv(s, h) && (Enabled(s, a) ==> Legal(s, a))
    ensures Inv(Apply(s, a), Note(s, h, a))
  {
    if Enabled(s, a) {
      MoveKeeps(s, h, a);
    } else {
      assert Apply(s, a) == s && Note(s, h, a) == h;
    }
  }

  lemma MoveKeeps(s: State, h: History, a: Action)
    requires Shape(s) && Inv(s, h) && Enabled(s, a) && Legal(s, a)
    ensures Inv(Apply(s, a), Note(s, h, a))
  {
    hide Apply, Note, Enabled, Legal, Table, Flow, Backs;
    TableKept(s, h, a);
    FlowKept(s, h, a);
    BacksKept(s, h, a);
  }

  // A block is in the table exactly if the cache of its partition holds it
  // reserved, exactly if it is being fetched, and then it is fetched once.
  lemma OneFetchEach(s: State, h: History, b: nat)
    requires Shape(s) && Inv(s, h)
    ensures Outstanding(s)[b] <= 1
    ensures b in s.waiting <==> Outstanding(s)[b] == 1
    ensures b in s.waiting <==> b in s.reserved[Part(b, |s.reserved|)]
  {
    hide Part, Outstanding, Listed, Owned, Flow;
  }

  // A request in the table waits for the line of 64 bytes that its address lies
  // in, and that line is fetched once.
  lemma WaitsForItsLine(s: State, h: History, b: nat, x: Access)
    requires Shape(s) && Inv(s, h) && b in s.waiting && x in s.waiting[b]
    ensures b % 64 == 0 && b <= x.addr % 0x1_0000_0000 < b + 64
    ensures Outstanding(s)[b] == 1
  {
    hide Part, Outstanding, Owned, Flow, Block, Backs;
    BlockSpan(x.addr);
  }

  // No two fetches under way are in one line.
  lemma OneFetchALine(s: State, h: History, b: nat, b': nat)
    requires Shape(s) && Inv(s, h)
    requires b in Outstanding(s) && b' in Outstanding(s) && b / 64 == b' / 64
    ensures b == b' && Outstanding(s)[b] == 1
  {
    hide Outstanding;
    FetchedWaits(s, h, b);
    FetchedWaits(s, h, b');
    WaitsForItsLine(s, h, b, s.waiting[b][0]);
    WaitsForItsLine(s, h, b', s.waiting[b'][0]);
  }

  lemma FetchedWaits(s: State, h: History, b: nat)
    requires Shape(s) && Inv(s, h) && b in Outstanding(s)
    ensures b in s.waiting && s.waiting[b] != []
  {
    hide Part, Outstanding, Owned, Flow, Block, Backs;
  }

  // The dirty blocks that the cache named when it evicted them are the writes in
  // the miss queue and in the DRAM and those called back: none is lost, doubled
  // or made up. When empty() holds all are written.
  lemma VictimsWritten(s: State, h: History)
    requires Shape(s) && Inv(s, h)
    ensures h.victims == M.WritesOf(s.missQ) + M.WritesOf(s.mem.inQ) + M.WritesOf(s.mem.inside) + h.written
    ensures Empty(s) ==> h.victims == h.written && s.parallel == |h.victims|
  {
    hide Table, Flow, M.WritesOf, M.Reads;
    assert h.victims == M.WritesOf(s.missQ) + M.Writes(s.mem) + h.written;
    if Empty(s) {
      M.EmptyReads(s.mem);
      M.WritesOfNone();
    }
  }

  // When empty() holds, every read that was accepted has been taken back, at
  // its own partition, nothing is reserved, and what the count of parallel
  // requests still shows are the writes sent to the DRAM.
  lemma EmptyMeansAnswered(s: State, h: History)
    requires Shape(s) && Inv(s, h) && Empty(s)
    ensures h.taken == h.accepted
    ensures forall i :: 0 <= i < |s.reserved| ==> s.reserved[i] == {}
    ensures s.parallel == h.writesSent
  {
    hide Part, Outstanding, M.Reads, Listed, Owned, ReadsIn;
    M.EmptyReads(s.mem);
    forall i | 0 <= i < |s.ins| ensures h.taken[i] == h.accepted[i] {
      NothingBetween(s, i);
    }
    forall i | 0 <= i < |s.reserved| ensures s.reserved[i] == {} {
      forall b ensures b !in s.reserved[i] {
        assert b !in s.waiting;
      }
    }
  }

  lemma NothingBetween(s: State, i: nat)
    requires Shape(s) && Empty(s) && i < |s.ins|
    ensures Between(s, i) == multiset{}
  {
    GatherNone(ReadOnly);
  }

  // While a read is unanswered, the cache is not empty: a caller that waits for
  // it may go on waiting.
  lemma WaitingIsSafe(s: State, h: History, i: nat, x: Access)
    requires Shape(s) && Inv(s, h) && i < |s.ins|
    requires h.accepted[i][x] > h.taken[i][x]
    ensures !Empty(s)
  {
    hide Inv;
    if Empty(s) { EmptyMeansAnswered(s, h); }
  }

  // A write is never answered.
  lemma {:induction false} WritesUnanswered(n: nat, acts: seq<Action>, i: nat, x: Access)
    requires n > 0 && Proper(Start(n), acts) && i < |Start(n).ins| && x.write
    ensures Notes(Start(n), acts).accepted[i][x] == 0 && Notes(Start(n), acts).taken[i][x] == 0
    decreases |acts|
  {
    hide Inv, Between, Start;
    OnlyReadsAccepted(Start(n), acts, i, x);
    RunKeeps(n, acts);
    var s, h := Run(Start(n), acts), Notes(Start(n), acts);
    InvFlow(s, h, i);
    assert h.accepted[i][x] == Between(s, i)[x] + h.taken[i][x];
  }

  lemma InvFlow(s: State, h: History, i: nat)
    requires Shape(s) && Inv(s, h) && i < |s.ins|
    ensures |h.accepted| == |h.taken| == |s.ins| && h.accepted[i] == Between(s, i) + h.taken[i]
  {
    hide Table, Between;
  }

  lemma {:induction false} OnlyReadsAccepted(s: State, acts: seq<Action>, i: nat, x: Access)
    requires Shape(s) && i < |s.ins| && x.write
    ensures Notes(s, acts).accepted[i][x] == 0
    decreases |acts|
  {
    hide Apply;
    if acts != [] { OnlyReadsAccepted(s, acts[..|acts| - 1], i, x); }
  }
}
