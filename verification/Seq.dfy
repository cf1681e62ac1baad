// src/seq.cc: the sequential reference. One worklist, one watcher at a time, one
// read at a time.
module Seq {
  import opened Bags
  import opened Bill
  import opened Forest
  import opened Queues
  import opened Tokens

  // Work of the sequential run: the watchers visited, clauses read and
  // assignments generated; the reads issued; the list writes handed to the
  // cache; and the cycles besides waiting.
  datatype Work = Work(seen: multiset<Token>, issued: nat, written: nat, cycles: nat)

  ghost function Plus(x: Work, y: Work): Work {
    Work(x.seen + y.seen, x.issued + y.issued, x.written + y.written, x.cycles + y.cycles)
  }

  const NOTHING: Work := Work(multiset{}, 0, 0, 0)

  // One thing more: something seen, a read, a write, some cycles.
  ghost function Saw(d: Work, t: Token): Work { d.(seen := d.seen + multiset{t}) }
  ghost function Issued(d: Work): Work { d.(issued := d.issued + 1) }
  ghost function Wrote(d: Work): Work { d.(written := d.written + 1) }
  ghost function Took(d: Work, n: nat): Work { d.(cycles := d.cycles + n) }

  // The two tests that guard a generated assignment.
  predicate Generates(a: Assign, w: nat)
  {
    w < Size(a) && ReadsClause(a, w) && a.watchers[w].flagged && Child(a, w).Implies?
  }

  predicate Pushes(a: Assign, w: nat) { w < Size(a) && a.watchers[w].pushed.Some? }

  // Watcher w itself: one read, a read of its clause, a read of the other list.
  ghost function OfWatcher(a: Assign, w: nat): Work
  {
    if !ReadsClause(a, w) then Work(multiset{At(WProc, a, w, 0)}, 1, 0, 2)
    else Work(multiset{At(WProc, a, w, 0), At(WSend, a, w, 0)}
              + (if Generates(a, w) then multiset{At(CGen, Child(a, w).child, 0, 0)} else multiset{}),
              if Pushes(a, w) then 3 else 2,
              1,
              20)
  }

  // Watchers w.. of a, with all the assignments they lead to.
  ghost function OfWatchers(a: Assign, w: nat): Work
    decreases Height(a), 0, Size(a) - w
  {
    ChildLower(a, w);
    if w >= Size(a) then NOTHING
    else Plus(Plus(OfWatcher(a, w),
                   if Generates(a, w) then OfAssign(Child(a, w).child) else NOTHING),
              OfWatchers(a, w + 1))
  }

  ghost function OfAssign(a: Assign): Work
    decreases Height(a), 1, 0
  {
    if Size(a) == 0 then NOTHING else Plus(Work(multiset{}, 1, 0, 1), OfWatchers(a, 0))
  }

  ghost function OfQueue(q: seq<Req>): Work
  {
    if q == [] then NOTHING else Plus(OfAssign(q[0].a), OfQueue(q[1..]))
  }

  lemma PlusAssoc(x: Work, y: Work, z: Work)
    ensures Plus(Plus(x, y), z) == Plus(x, Plus(y, z))
    ensures Plus(x, y) == Plus(y, x)
    ensures Plus(x, NOTHING) == x
  {
  }

  lemma PlusParts(x: Work, y: Work)
    ensures Plus(x, y).issued == x.issued + y.issued
    ensures Plus(x, y).written == x.written + y.written
    ensures Plus(x, y).cycles == x.cycles + y.cycles
    ensures |Plus(x, y).seen| == |x.seen| + |y.seen|
  {
  }

  lemma {:induction false} QueuePush(q: seq<Req>, r: Req)
    ensures OfQueue(q + [r]) == Plus(OfQueue(q), OfAssign(r.a))
  {
    hide OfAssign, Plus;
    if q == [] {
      PlusAssoc(OfAssign(r.a), NOTHING, NOTHING);
      assert q + [r] == [r];
    } else {
      QueuePush(q[1..], r);
      assert (q + [r])[1..] == q[1..] + [r];
      PlusAssoc(OfAssign(q[0].a), OfQueue(q[1..]), OfAssign(r.a));
    }
  }

  // The cycles spent waiting for reads i..j, if read k is answered after wait(k).
  ghost function Waits(wait: nat -> nat, i: nat, j: nat): nat
    requires i <= j
    decreases j
  {
    if i == j then 0 else Waits(wait, i, j - 1) + wait(j - 1)
  }

  lemma {:induction false} WaitsSplit(wait: nat -> nat, i: nat, j: nat, k: nat)
    requires i <= j <= k
    ensures Waits(wait, i, k) == Waits(wait, i, j) + Waits(wait, j, k)
    decreases k
  {
    if j < k { WaitsSplit(wait, i, j, k - 1); }
  }

  // The algebra of one pass of the loops: entering a list, one watcher, leaving.
  lemma StartList(done: Work, a: Assign, q: Work)
    requires Size(a) > 0
    ensures Plus(done, Plus(OfAssign(a), q)) == Plus(Plus(done, Work(multiset{}, 1, 0, 1)), Plus(OfWatchers(a, 0), q))
  {
    hide OfWatchers, Plus;
    var m, r := Work(multiset{}, 1, 0, 1), OfWatchers(a, 0);
    PlusAssoc(m, r, q);
    PlusAssoc(done, m, Plus(r, q));
  }

  // The parts of the work of one watcher.
  predicate Flags(a: Assign, w: nat) { w < Size(a) && a.watchers[w].flagged && Child(a, w).Implies? }

  ghost function OfWrite(a: Assign, w: nat): Work {
    Work(multiset{}, if Pushes(a, w) then 1 else 0, 1, 1)
  }

  ghost function OfClause(a: Assign, w: nat): Work {
    Work(multiset{At(WSend, a, w, 0)}
         + (if Flags(a, w) then multiset{At(CGen, Child(a, w).child, 0, 0)} else multiset{}),
         if Pushes(a, w) then 2 else 1, 1, 19)
  }

  lemma ClauseParts(d: Work, a: Assign, w: nat)
    ensures var d1 := Took(Saw(Issued(d), At(WSend, a, w, 0)), 18);
            var d2 := if Flags(a, w) then Saw(d1, At(CGen, Child(a, w).child, 0, 0)) else d1;
            Plus(d2, OfWrite(a, w)) == Plus(d, OfClause(a, w))
  {
  }

  lemma WatcherParts(d: Work, a: Assign, w: nat)
    ensures var d1 := Took(Saw(Issued(d), At(WProc, a, w, 0)), 1);
            && (ReadsClause(a, w) ==> Plus(d1, OfClause(a, w)) == Plus(d, OfWatcher(a, w)))
            && (!ReadsClause(a, w) ==> Took(d1, 1) == Plus(d, OfWatcher(a, w)))
  {
  }

  // The read of the metadata and its cycle.
  lemma MetaRead(d: Work)
    ensures Took(Issued(d), 1) == Plus(d, Work(multiset{}, 1, 0, 1))
  {
  }

  lemma NextWatcher(done: Work, a: Assign, w: nat, q: seq<Req>)
    requires w < Size(a)
    ensures var q' := q + if Generates(a, w) then [Req(ReadWatcherMetaData, Child(a, w).child, 0, 0)] else [];
            Plus(done, Plus(OfWatchers(a, w), OfQueue(q)))
            == Plus(Plus(done, OfWatcher(a, w)), Plus(OfWatchers(a, w + 1), OfQueue(q')))
  {
    hide OfWatcher, OfAssign, OfQueue, Plus;
    var own, rest, q0 := OfWatcher(a, w), OfWatchers(a, w + 1), OfQueue(q);
    var g := if Generates(a, w) then OfAssign(Child(a, w).child) else NOTHING;
    if Generates(a, w) {
      QueuePush(q, Req(ReadWatcherMetaData, Child(a, w).child, 0, 0));
    } else {
      assert q + [] == q;
      PlusAssoc(q0, NOTHING, NOTHING);
    }
    Regroup(done, own, g, rest, q0);
  }

  lemma NoMoreWatchers(a: Assign)
    ensures OfWatchers(a, Size(a)) == NOTHING
  {
  }

  lemma EmptyList(a: Assign)
    ensures Size(a) == 0 ==> OfAssign(a) == NOTHING
  {
  }

  lemma SeesSomething(a: Assign, w: nat)
    ensures |OfWatcher(a, w).seen| > 0
  {
    assert At(WProc, a, w, 0) in OfWatcher(a, w).seen;
  }

  lemma Regroup(d: Work, own: Work, g: Work, rest: Work, q: Work)
    ensures Plus(d, Plus(Plus(Plus(own, g), rest), q)) == Plus(Plus(d, own), Plus(rest, Plus(q, g)))
  {
    hide Plus;
    PlusAssoc(d, own, Plus(rest, Plus(q, g)));
    PlusAssoc(own, g, rest);
    PlusAssoc(own, Plus(g, rest), q);
    PlusAssoc(g, rest, q);
    PlusAssoc(rest, q, g);
    PlusAssoc(g, Plus(rest, q), q);
  }

  // A pass that saw something leaves less to see.
  lemma LessToSee(d: Work, q: Work, d': Work, q': Work)
    requires Plus(d, q) == Plus(d', q') && |d.seen| < |d'.seen|
    ensures |q'.seen| < |q.seen|
  {
    PlusParts(d, q);
    PlusParts(d', q');
  }

  class SeqPipeline {
    var inReqs: seq<Req>
    var empty: bool
    // The reads issued so far, and the work done so far.
    var issued: nat
    ghost var did: Work

    constructor ()
      ensures inReqs == [] && empty && issued == 0 && did == NOTHING
    {
      inReqs, empty, issued, did := [], true, 0, NOTHING;
    }

    // One request at a time: pushing another before Get trips an assert.
    method Push(req: Req)
      requires empty
      modifies `inReqs, `empty
      ensures inReqs == old(inReqs) + [req] && !empty
    {
      empty := false;
      inReqs := inReqs + [req];
    }

    // Issue a read, and cycle the cache until it answers.
    method Await(wait: nat -> nat) returns (cycles: nat)
      modifies `issued, `did
      ensures issued == old(issued) + 1 && cycles == Waits(wait, old(issued), issued)
      ensures did == Issued(old(did))
    {
      cycles := 0;
      while cycles < wait(issued)
        invariant cycles <= wait(issued)
      {
        cycles := cycles + 1;
      }
      issued := issued + 1;
      did := Issued(did);
      assert Waits(wait, issued - 1, issued - 1) == 0;
    }

    // The write of the list, after a read of the other list if the watcher is
    // pushed there.
    method WriteList(out: Req, w: nat, wait: nat -> nat) returns (cycles: nat)
      requires w < Size(out.a)
      modifies `issued, `did
      ensures did == Plus(old(did), OfWrite(out.a, w))
      ensures issued == old(issued) + OfWrite(out.a, w).issued
      ensures cycles == Waits(wait, old(issued), issued) + OfWrite(out.a, w).cycles
    {
      cycles := 0;
      NoWait(wait, issued);
      if out.a.watchers[w].pushed.Some? {
        cycles := Await(wait);
      }
      did := Wrote(did);
      cycles := cycles + 1;
      did := Took(did, 1);
    }

    // The clause of a watcher: its read, the assignment it generates, the write.
    method ReadClause(out: Req, w: nat, wait: nat -> nat) returns (cycles: nat)
      requires w < Size(out.a)
      modifies `inReqs, `issued, `did
      ensures inReqs == old(inReqs)
                + if Flags(out.a, w) then [Req(ReadWatcherMetaData, Child(out.a, w).child, 0, 0)] else []
      ensures did == Plus(old(did), OfClause(out.a, w))
      ensures issued == old(issued) + OfClause(out.a, w).issued
      ensures cycles == Waits(wait, old(issued), issued) + OfClause(out.a, w).cycles
    {
      ghost var r0, d0 := issued, did;
      cycles := Await(wait);
      did := Saw(did, At(WSend, out.a, w, 0));
      cycles := 1 + cycles + 1 + 16;
      did := Took(did, 1 + 1 + 16);
      if out.a.watchers[w].flagged {
        var implied := Child(out.a, w);
        if implied.Implies? {
          inReqs := inReqs + [Req(ReadWatcherMetaData, implied.child, 0, 0)];
          did := Saw(did, At(CGen, implied.child, 0, 0));
        }
      }
      ClauseParts(d0, out.a, w);
      ghost var r1 := issued;
      var more := WriteList(out, w, wait);
      WaitsSplit(wait, r0, r1, issued);
      cycles := cycles + more;
    }

    // One watcher of the list of out.
    method OneWatcher(out: Req, w: nat, wait: nat -> nat) returns (cycles: nat)
      requires w < Size(out.a)
      modifies `inReqs, `issued, `did
      ensures inReqs == old(inReqs)
                + if Generates(out.a, w) then [Req(ReadWatcherMetaData, Child(out.a, w).child, 0, 0)] else []
      ensures did == Plus(old(did), OfWatcher(out.a, w))
      ensures issued == old(issued) + OfWatcher(out.a, w).issued
      ensures cycles == Waits(wait, old(issued), issued) + OfWatcher(out.a, w).cycles
    {
      ghost var r0, d0 := issued, did;
      cycles := Await(wait);
      did := Saw(did, At(WProc, out.a, w, 0));
      cycles := cycles + 1;
      did := Took(did, 1);
      WatcherParts(d0, out.a, w);
      if out.a.watchers[w].readClause {
        ghost var r1 := issued;
        var more := ReadClause(out, w, wait);
        WaitsSplit(wait, r0, r1, issued);
        cycles := cycles + more;
      } else {
        cycles := cycles + 1;
        did := Took(did, 1);
      }
    }

    // One list, watcher by watcher.
    method OneList(req: Req, wait: nat -> nat) returns (cycles: nat)
      requires Size(req.a) > 0
      modifies `inReqs, `issued, `did
      ensures Plus(did, OfQueue(inReqs)) == Plus(old(did), Plus(OfAssign(req.a), OfQueue(old(inReqs))))
      ensures |old(did).seen| < |did.seen| && old(issued) <= issued
      ensures issued + old(did).issued == old(issued) + did.issued
      ensures cycles + old(did).cycles == Waits(wait, old(issued), issued) + did.cycles
    {
      hide OfAssign, OfQueue, OfWatchers, OfWatcher, Generates, Plus, Waits;
      StartList(did, req.a, OfQueue(inReqs));
      PlusParts(did, Work(multiset{}, 1, 0, 1));
      MetaRead(did);
      cycles := Await(wait);
      cycles := cycles + 1;
      did := Took(did, 1);
      var w := 0;
      while w != Size(req.a)
        invariant w <= Size(req.a) && old(issued) <= issued
        invariant Plus(did, Plus(OfWatchers(req.a, w), OfQueue(inReqs)))
               == Plus(old(did), Plus(OfAssign(req.a), OfQueue(old(inReqs))))
        invariant |old(did).seen| + w <= |did.seen|
        invariant issued + old(did).issued == old(issued) + did.issued
        invariant cycles + old(did).cycles == Waits(wait, old(issued), issued) + did.cycles
      {
        ghost var r1 := issued;
        NextWatcher(did, req.a, w, inReqs);
        SeesSomething(req.a, w);
        PlusParts(did, OfWatcher(req.a, w));
        var more := OneWatcher(req, w, wait);
        WaitsSplit(wait, old(issued), r1, issued);
        cycles := cycles + more;
        w := w + 1;
      }
      NoMoreWatchers(req.a);
      PlusAssoc(OfQueue(inReqs), NOTHING, NOTHING);
    }

    // The whole worklist, generated assignments included.
    method Get(wait: nat -> nat) returns (totalCycle: nat)
      requires !empty
      modifies this
      ensures empty && inReqs == []
      ensures did == Plus(old(did), OfQueue(old(inReqs)))
      ensures issued == old(issued) + OfQueue(old(inReqs)).issued
      ensures totalCycle == Waits(wait, old(issued), issued) + OfQueue(old(inReqs)).cycles
    {
      empty := true;
      totalCycle := Drain(wait);
      PlusAssoc(did, NOTHING, NOTHING);
    }

    method Drain(wait: nat -> nat) returns (totalCycle: nat)
      modifies `inReqs, `issued, `did
      ensures inReqs == []
      ensures did == Plus(old(did), OfQueue(old(inReqs)))
      ensures old(issued) <= issued && issued + old(did).issued == old(issued) + did.issued
      ensures totalCycle + old(did).cycles == Waits(wait, old(issued), issued) + did.cycles
    {
      hide OfAssign, Plus, Waits;
      totalCycle := 0;
      NoWait(wait, issued);
      while inReqs != []
        invariant old(issued) <= issued
        invariant Plus(did, OfQueue(inReqs)) == Plus(old(did), OfQueue(old(inReqs)))
        invariant issued + old(did).issued == old(issued) + did.issued
        invariant totalCycle + old(did).cycles == Waits(wait, old(issued), issued) + did.cycles
        decreases |OfQueue(inReqs).seen|, |inReqs|
      {
        var req := inReqs[0];
        ghost var q := OfQueue(inReqs);
        inReqs := inReqs[1..];
        if Size(req.a) == 0 {
          EmptyList(req.a);
          PlusAssoc(OfQueue(inReqs), NOTHING, NOTHING);
        } else {
          ghost var r1, d := issued, did;
          var cycles := OneList(req, wait);
          WaitsSplit(wait, old(issued), r1, issued);
          totalCycle := totalCycle + cycles;
          LessToSee(d, q, did, OfQueue(inReqs));
        }
      }
      PlusAssoc(did, NOTHING, NOTHING);
    }
  }

  lemma NoWait(wait: nat -> nat, i: nat)
    ensures Waits(wait, i, i) == 0
  {
  }
}
