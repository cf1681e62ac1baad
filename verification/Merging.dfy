// No write is lost by merging: every request that a list writer takes is
// covered by one write to its own list, sent no earlier than it was taken, or
// waits in the live entry of its list. The counts, the totals and the aging
// queue agree with that partition in every run.
module Merging {
  import opened Bags
  import opened Forest
  import opened Tokens
  import opened ListWriter

  // What became of each request: it waits in the entry of its list, or the
  // write with that number stands for it.
  datatype Owner = Waiting | Written(j: nat)

  // A write, and how many requests had been taken when it was sent.
  datatype Sent = Sent(r: Req, at: nat)

  // The history of a writer.
  //   taken: the lists of the requests taken from the input, in order
  //   owner: what became of each
  //   sent, left: the writes, and how many of them have been taken away
  //   full: the writes caused by a full entry
  //   flushes, drained: the writes of flushes, and the requests they stand for
  //   agingAt, since: when each id in the aging queue, and each live entry, was
  //     inserted
  //   flushedAt: the requests taken before the last flush
  datatype Book = Book(
    taken: seq<int>, owner: seq<Owner>, sent: seq<Sent>, left: nat,
    full: nat, flushes: nat, drained: nat,
    agingAt: seq<nat>, since: map<int, nat>, flushedAt: nat)

  const NOTHING: Book := Book([], [], [], 0, 0, 0, 0, [], map[], 0)

  ghost predicate Linked(u: State, b: Book)
  {
    |b.owner| == |b.taken| && |b.agingAt| == |u.aging| && u.counts.Keys == u.reqs.Keys
  }

  // All requests that wait for list k are covered by write j.
  ghost function Settle(taken: seq<int>, owner: seq<Owner>, k: int, j: nat): seq<Owner>
    requires |owner| == |taken|
  {
    seq(|owner|, i requires 0 <= i < |owner| =>
      if owner[i].Waiting? && taken[i] == k then Written(j) else owner[i])
  }

  ghost function Close(b: Book, k: int, r: Req): Book
    requires |b.owner| == |b.taken|
  {
    b.(owner := Settle(b.taken, b.owner, k, |b.sent|),
       sent := b.sent + [Sent(r, |b.taken|)],
       since := b.since - {k})
  }

  ghost function Take(b: Book, k: int): Book { b.(taken := b.taken + [k], owner := b.owner + [Waiting]) }

  ghost function CloseFull(b: Book, k: int, r: Req): Book
    requires |b.owner| == |b.taken|
  {
    Close(Take(b, k), k, r).(full := b.full + 1)
  }

  ghost function CloseOldest(u: State, b: Book): Book
    requires Linked(u, b)
  {
    var q := Live(u.aging, u.reqs);
    LiveSuffix(u.aging, u.reqs);
    if q == [] then b.(agingAt := [])
    else Close(b, q[0], u.reqs[q[0]]).(agingAt := b.agingAt[|u.aging| - |q| + 1..])
  }

  ghost function Open(b: Book, k: int): Book {
    Take(b, k).(agingAt := b.agingAt + [|b.taken|], since := b.since[k := |b.taken|])
  }

  ghost function AcceptNote(g: Limits, u: State, b: Book, r: Req): Book
    requires Linked(u, b)
  {
    var k := Key(r);
    if k in u.counts then
      (if u.counts[k] < g.maxMerge then Take(b, k) else CloseFull(b, k, r))
    else Open(if |u.counts| >= g.maxEntry then CloseOldest(u, b) else b, k)
  }

  ghost function CloseAll(reqs: map<int, Req>, b: Book): (b': Book)
    requires |b.owner| == |b.taken|
    ensures |b'.owner| == |b'.taken|
    decreases |reqs|
  {
    if reqs == map[] then b
    else
      assert reqs.Keys != {};
      var k := Least(reqs.Keys);
      CloseAll(reqs - {k}, Close(b, k, reqs[k]))
  }

  ghost function FlushNote(u: State, b: Book): Book
    requires |b.owner| == |b.taken|
  {
    CloseAll(u.reqs, b).(agingAt := [], since := map[], flushedAt := |b.taken|,
                         flushes := b.flushes + |u.reqs|, drained := b.drained + Sum(u.counts))
  }

  // How the book follows the unit.
  ghost function Note(g: Limits, u: State, b: Book, e: Event): (b': Book)
    requires Linked(u, b)
    ensures Linked(Next(g, u, e), b')
  {
    LiveSuffix(u.aging, u.reqs);
    match e
    case Arrive(_) => b
    case Cycle =>
      if u.input == [] || Size(u.input[0].a) == 0 then b
      else AcceptNote(g, u.(input := u.input[1..]), b, u.input[0].(kind := WriteWatcherList))
    case Leave => if u.output == [] then b else b.(left := b.left + 1)
    case FlushAll => FlushNote(u, b)
  }

  ghost function Books(g: Limits, es: seq<Event>): (b: Book)
    ensures Linked(Run(g, es), b)
    decreases |es|
  {
    if es == [] then NOTHING
    else
      var before := es[..|es| - 1];
      Note(g, Run(g, before), Books(g, before), es[|es| - 1])
  }

  // How many requests wait for list k, and how many write j stands for.
  ghost function WaitingFor(taken: seq<int>, owner: seq<Owner>, k: int): nat
    requires |owner| == |taken|
  {
    if owner == [] then 0
    else
      var n := |owner| - 1;
      WaitingFor(taken[..n], owner[..n], k) + if owner[n].Waiting? && taken[n] == k then 1 else 0
  }

  ghost function CoveredBy(owner: seq<Owner>, j: nat): nat
  {
    if owner == [] then 0
    else
      var n := |owner| - 1;
      CoveredBy(owner[..n], j) + if owner[n] == Written(j) then 1 else 0
  }

  lemma {:induction false} SettleCounts(taken: seq<int>, owner: seq<Owner>, k: int, j: nat)
    requires |owner| == |taken|
    requires forall i :: 0 <= i < |owner| && owner[i].Written? ==> owner[i].j < j
    ensures var after := Settle(taken, owner, k, j);
            && WaitingFor(taken, after, k) == 0
            && (forall k' :: k' != k ==> WaitingFor(taken, after, k') == WaitingFor(taken, owner, k'))
            && CoveredBy(after, j) == WaitingFor(taken, owner, k)
            && (forall j': nat :: j' < j ==> CoveredBy(after, j') == CoveredBy(owner, j'))
    decreases |owner|
  {
    var after := Settle(taken, owner, k, j);
    if owner != [] {
      var n := |owner| - 1;
      SettleCounts(taken[..n], owner[..n], k, j);
      assert Settle(taken[..n], owner[..n], k, j) == after[..n];
    }
  }

  lemma TakeCounts(taken: seq<int>, owner: seq<Owner>, k: int)
    requires |owner| == |taken|
    ensures forall k' :: WaitingFor(taken + [k], owner + [Waiting], k')
                      == WaitingFor(taken, owner, k') + if k' == k then 1 else 0
    ensures forall j: nat :: CoveredBy(owner + [Waiting], j) == CoveredBy(owner, j)
  {
    assert (taken + [k])[..|owner|] == taken && (owner + [Waiting])[..|owner|] == owner;
  }

  lemma {:induction false} NoneWaiting(taken: seq<int>, owner: seq<Owner>, k: int)
    requires |owner| == |taken|
    requires forall i :: 0 <= i < |owner| && owner[i].Waiting? ==> taken[i] != k
    ensures WaitingFor(taken, owner, k) == 0
    decreases |owner|
  {
    if owner != [] {
      var n := |owner| - 1;
      NoneWaiting(taken[..n], owner[..n], k);
    }
  }

  lemma SomeKey<V>(m: map<int, V>)
    requires m != map[]
    ensures exists k :: k in m.Keys
  {
    var k := Member(m.Keys);
    assert k in m.Keys;
  }

  ghost function Sum(m: map<int, nat>): nat
    decreases |m|
  {
    if m == map[] then 0
    else
      SomeKey(m);
      var k :| k in m.Keys;
      m[k] + Sum(m - {k})
  }

  lemma SumUnfold(m: map<int, nat>) returns (k: int)
    requires m != map[]
    ensures k in m && Sum(m) == m[k] + Sum(m - {k})
  {
    SomeKey(m);
    k :| k in m.Keys && Sum(m) == m[k] + Sum(m - {k});
  }

  lemma {:induction false} SumPick(m: map<int, nat>, k: int)
    requires k in m
    ensures Sum(m) == m[k] + Sum(m - {k})
    decreases |m|
  {
    hide Sum;
    var o := SumUnfold(m);
    if o != k {
      SumPick(m - {o}, k);
      SumPick(m - {k}, o);
      assert m - {o} - {k} == m - {k} - {o};
    }
  }

  lemma SumSet(m: map<int, nat>, k: int, x: nat)
    ensures Sum(m[k := x]) == x + Sum(m - {k})
    ensures k !in m ==> m - {k} == m
  {
    SumPick(m[k := x], k);
    assert m[k := x] - {k} == m - {k};
  }

  lemma {:induction false} SumAtMost(m: map<int, nat>, x: nat)
    requires forall k :: k in m ==> m[k] <= x
    ensures Sum(m) <= x * |m|
    decreases |m|
  {
    hide Sum;
    if m == map[] {
      SumNone();
    } else {
      var k := SumUnfold(m);
      SumAtMost(m - {k}, x);
      assert |m| == |m - {k}| + 1;
    }
  }

  lemma SumNone()
    ensures Sum(map[]) == 0
  {
  }

  // Each request waits for its live entry, or is covered by one write to its
  // list that was sent after it was taken.
  ghost predicate Covered(u: State, b: Book)
  {
    && |b.owner| == |b.taken|
    && (forall i :: 0 <= i < |b.owner| && b.owner[i].Waiting? ==> b.taken[i] in u.counts)
    && (forall i :: 0 <= i < |b.owner| && b.owner[i].Written? ==>
          && b.owner[i].j < |b.sent|
          && Key(b.sent[b.owner[i].j].r) == b.taken[i]
          && i < b.sent[b.owner[i].j].at <= |b.taken|)
  }

  // The count of a live entry is the number of requests that wait for it, and
  // no write stands for none, or for more than a full entry and the request
  // that found it full. Here list x has e more waiting than its count says.
  ghost predicate Counted(g: Limits, u: State, b: Book, x: int, e: nat)
  {
    && |b.owner| == |b.taken|
    && u.counts.Keys == u.reqs.Keys
    && (forall k :: k in u.reqs ==> Key(u.reqs[k]) == k)
    && (forall k :: k in u.counts ==>
          && 1 <= u.counts[k] <= g.maxMerge
          && WaitingFor(b.taken, b.owner, k) == u.counts[k] + if k == x then e else 0)
    && |u.counts| <= g.maxEntry
    && (forall j :: 0 <= j < |b.sent| ==> 1 <= CoveredBy(b.owner, j) <= g.maxMerge + 1)
  }

  // The totals of the source: total_origin_package leaves out the requests that
  // find an entry full, and neither total knows of a flush.
  ghost predicate Summed(g: Limits, u: State, b: Book)
  {
    && |b.taken| == Sum(u.counts) + u.origin + b.full + b.drained
    && |b.sent| == u.merged + b.flushes
    && b.full <= u.merged
    && u.origin <= g.maxMerge * u.merged
  }

  // The aging queue: in order of insertion, with every live entry in it, at the
  // place where it was inserted and perhaps at earlier, stale ones.
  ghost predicate Aged(u: State, b: Book)
  {
    && |b.agingAt| == |u.aging|
    && b.since.Keys == u.counts.Keys
    && (forall i, j :: 0 <= i < j < |b.agingAt| ==> b.agingAt[i] < b.agingAt[j])
    && (forall i :: 0 <= i < |b.agingAt| ==> b.agingAt[i] < |b.taken|)
    && (forall i :: 0 <= i < |u.aging| && u.aging[i] in b.since ==> b.agingAt[i] <= b.since[u.aging[i]])
    && (forall k :: k in b.since ==> Placed(u, b, k))
  }

  ghost predicate Placed(u: State, b: Book, k: int)
    requires |b.agingAt| == |u.aging| && k in b.since
  {
    exists i :: 0 <= i < |u.aging| && u.aging[i] == k && b.agingAt[i] == b.since[k]
  }

  // The writes not yet taken away are the output.
  ghost predicate Sending(u: State, b: Book)
  {
    && |u.output| + b.left == |b.sent|
    && (forall i :: 0 <= i < |u.output| ==> u.output[i] == b.sent[b.left + i].r)
  }

  ghost predicate Core(g: Limits, u: State, b: Book)
  {
    && Covered(u, b) && Counted(g, u, b, 0, 0) && Summed(g, u, b) && Aged(u, b) && Sending(u, b)
    && b.flushedAt <= |b.taken|
  }

  // Since the last flush something was taken exactly if the aging queue is not
  // empty.
  ghost predicate Inv(g: Limits, u: State, b: Book)
  {
    Core(g, u, b) && (u.aging == [] <==> b.flushedAt == |b.taken|)
  }

  // Closing an entry.
  ghost function Shut(u: State, k: int, r: Req): State {
    u.(output := u.output + [r], counts := u.counts - {k}, reqs := u.reqs - {k})
  }

  lemma ShutCovered(u: State, b: Book, k: int, r: Req)
    requires Covered(u, b) && Key(r) == k
    ensures Covered(Shut(u, k, r), Close(b, k, r))
  {
  }

  lemma ShutCounted(g: Limits, u: State, b: Book, k: int, r: Req, e: nat)
    requires Covered(u, b) && Counted(g, u, b, k, e) && e <= 1
    requires k in u.counts && Key(r) == k
    ensures Counted(g, Shut(u, k, r), Close(b, k, r), 0, 0)
  {
    hide WaitingFor, CoveredBy, Settle, Key;
    var b' := Close(b, k, r);
    SettleKeeps(b.taken, b.owner, k, |b.sent|);
    SettleCounts(b.taken, b.owner, k, |b.sent|);
    forall j | 0 <= j < |b'.sent| ensures 1 <= CoveredBy(b'.owner, j) <= g.maxMerge + 1 {
      if j < |b.sent| { assert CoveredBy(b'.owner, j) == CoveredBy(b.owner, j); }
    }
    assert |u.counts - {k}| == |u.counts| - 1;
  }

  lemma SettleKeeps(taken: seq<int>, owner: seq<Owner>, k: int, j: nat)
    requires |owner| == |taken|
    ensures |Settle(taken, owner, k, j)| == |owner|
  {
  }

  // A request joins the entry of its list.
  ghost function Joined(u: State, k: int): State
    requires k in u.counts
  {
    u.(counts := u.counts[k := u.counts[k] + 1])
  }

  lemma TakeCounted(g: Limits, u: State, b: Book, k: int)
    requires Counted(g, u, b, 0, 0) && k in u.counts
    ensures Counted(g, u, Take(b, k), k, 1)
  {
    hide WaitingFor, CoveredBy, Key;
    TakeCounts(b.taken, b.owner, k);
  }

  lemma TakeAged(u: State, b: Book, k: int)
    requires Aged(u, b)
    ensures Aged(u, Take(b, k))
  {
    forall x | x in b.since ensures Placed(u, Take(b, k), x) {
      var i :| 0 <= i < |u.aging| && u.aging[i] == x && b.agingAt[i] == b.since[x];
    }
  }

  lemma LiveIsQueued(u: State, b: Book, k: int)
    requires Aged(u, b) && k in u.counts
    ensures k in u.aging
  {
    assert Placed(u, b, k);
  }

  lemma JoinKeeps(g: Limits, u: State, b: Book, k: int)
    requires Inv(g, u, b) && k in u.counts && u.counts[k] < g.maxMerge
    ensures Inv(g, Joined(u, k), Take(b, k))
  {
    hide WaitingFor, CoveredBy, Sum, Key, Aged, Counted;
    TakeCounted(g, u, b, k);
    TakeAged(u, b, k);
    LiveIsQueued(u, b, k);
    JoinCounted(g, u, Take(b, k), k);
    JoinAged(u, Take(b, k), k);
    SumPick(u.counts, k);
    SumSet(u.counts, k, u.counts[k] + 1);
  }

  lemma JoinCounted(g: Limits, u: State, b: Book, k: int)
    requires Counted(g, u, b, k, 1) && k in u.counts && u.counts[k] < g.maxMerge
    ensures Counted(g, Joined(u, k), b, 0, 0)
  {
    hide WaitingFor, CoveredBy, Key;
  }

  lemma JoinAged(u: State, b: Book, k: int)
    requires Aged(u, b) && k in u.counts
    ensures Aged(Joined(u, k), b)
  {
    forall x | x in b.since ensures Placed(Joined(u, k), b, x) {
      assert Placed(u, b, x);
    }
  }

  // A full entry is written out by the request that finds it full.
  lemma FullKeeps(g: Limits, u: State, b: Book, k: int, r: Req)
    requires Inv(g, u, b) && k in u.counts && u.counts[k] == g.maxMerge && Key(r) == k
    ensures Inv(g, Emit(u, k, r), CloseFull(b, k, r))
  {
    hide WaitingFor, CoveredBy, Sum, Key, Aged, Counted, Settle;
    var b' := Take(b, k);
    TakeCounted(g, u, b, k);
    TakeAged(u, b, k);
    LiveIsQueued(u, b, k);
    ShutCovered(u, b', k, r);
    ShutCounted(g, u, b', k, r, 1);
    CountedSame(g, Shut(u, k, r), Close(b', k, r), 0, Emit(u, k, r), CloseFull(b, k, r), 0);
    EmitAged(u, b', k, r);
    SumPick(u.counts, k);
    assert u.counts[k] <= g.maxMerge;
    assert g.maxMerge * (u.merged + 1) == g.maxMerge * u.merged + g.maxMerge;
  }

  // The totals and the queues play no part in who waits for what.
  lemma CountedSame(g: Limits, u: State, b: Book, x: int, u': State, b': Book, y: int)
    requires Counted(g, u, b, x, 0) && u'.counts == u.counts && u'.reqs == u.reqs
    requires b'.taken == b.taken && b'.owner == b.owner && b'.sent == b.sent
    ensures Counted(g, u', b', y, 0)
  {
    hide WaitingFor, CoveredBy, Key;
  }

  lemma EmitAged(u: State, b: Book, k: int, r: Req)
    requires Aged(u, b) && k in u.counts && |b.owner| == |b.taken|
    ensures Aged(Emit(u, k, r), Close(b, k, r).(full := b.full + 1))
  {
    hide Settle;
    var u', b' := Emit(u, k, r), Close(b, k, r).(full := b.full + 1);
    forall x | x in b'.since ensures Placed(u', b', x) {
      assert Placed(u, b, x);
    }
  }

  // A new entry.
  lemma InsertKeeps(g: Limits, u: State, b: Book, k: int, r: Req)
    requires Core(g, u, b) && k !in u.counts && |u.counts| < g.maxEntry && g.maxMerge >= 1 && Key(r) == k
    ensures Inv(g, Insert(u, k, r), Open(b, k))
  {
    hide WaitingFor, CoveredBy, Sum, Key, Aged, Counted;
    InsertCounted(g, u, b, k, r);
    InsertAged(u, b, k, r);
    SumSet(u.counts, k, 1);
  }

  lemma InsertCounted(g: Limits, u: State, b: Book, k: int, r: Req)
    requires Covered(u, b) && Counted(g, u, b, 0, 0)
    requires k !in u.counts && |u.counts| < g.maxEntry && g.maxMerge >= 1 && Key(r) == k
    ensures Counted(g, Insert(u, k, r), Open(b, k), 0, 0)
  {
    hide WaitingFor, CoveredBy, Key;
    TakeCounts(b.taken, b.owner, k);
    NoneWaiting(b.taken, b.owner, k);
    assert |u.counts[k := 1]| == |u.counts| + 1;
  }

  lemma InsertAged(u: State, b: Book, k: int, r: Req)
    requires Aged(u, b) && k !in u.counts
    ensures Aged(Insert(u, k, r), Open(b, k))
  {
    var u', b' := Insert(u, k, r), Open(b, k);
    forall x | x in b'.since ensures Placed(u', b', x) {
      if x == k {
        assert u'.aging[|u.aging|] == k && b'.agingAt[|u.aging|] == b'.since[k];
      } else {
        assert Placed(u, b, x);
        var i :| 0 <= i < |u.aging| && u.aging[i] == x && b.agingAt[i] == b.since[x];
        assert u'.aging[i] == x && b'.agingAt[i] == b'.since[x];
      }
    }
  }

  // The victim exists whenever something is live.
  lemma VictimIsLive(g: Limits, u: State, b: Book)
    requires Core(g, u, b) && u.counts != map[]
    ensures var q := Live(u.aging, u.reqs); q != [] && q[0] in u.counts && q[0] in u.reqs
  {
    hide WaitingFor, CoveredBy, Sum, Key, Live, Covered, Summed;
    SomeKey(u.counts);
    var k :| k in u.counts.Keys;
    LiveIsQueued(u, b, k);
    LiveSuffix(u.aging, u.reqs);
  }

  lemma AreLinked(g: Limits, u: State, b: Book)
    requires Core(g, u, b)
    ensures Linked(u, b)
  {
    hide WaitingFor, CoveredBy, Sum, Key;
  }

  lemma EvictKeeps(g: Limits, u: State, b: Book)
    requires Linked(u, b) && Core(g, u, b) && u.counts != map[]
    requires Live(u.aging, u.reqs) != []
    ensures Core(g, Evict(u), CloseOldest(u, b))
    ensures Evict(u).counts == u.counts - {Live(u.aging, u.reqs)[0]} && Evict(u).failed == u.failed
    ensures |Evict(u).counts| == |u.counts| - 1
  {
    hide WaitingFor, CoveredBy, Sum, Key, Aged, Counted, Settle, Live;
    VictimIsLive(g, u, b);
    AreLinked(g, u, b);
    LiveSuffix(u.aging, u.reqs);
    var k := Live(u.aging, u.reqs)[0];
    var r := u.reqs[k];
    CountedKeys(g, u, b, k);
    ShutCovered(u, b, k, r);
    CountedSame(g, u, b, 0, u, b, k);
    ShutCounted(g, u, b, k, r, 0);
    CountedSame(g, Shut(u, k, r), Close(b, k, r), 0, Evict(u), CloseOldest(u, b), 0);
    EvictAged(u, b);
    SumPick(u.counts, k);
    assert g.maxMerge * (u.merged + 1) == g.maxMerge * u.merged + g.maxMerge;
  }

  lemma CountedKeys(g: Limits, u: State, b: Book, k: int)
    requires Counted(g, u, b, 0, 0) && k in u.reqs
    ensures Key(u.reqs[k]) == k && k in u.counts && 1 <= u.counts[k] <= g.maxMerge
  {
  }

  lemma EvictAged(u: State, b: Book)
    requires Linked(u, b) && Aged(u, b)
    requires Live(u.aging, u.reqs) != []
    ensures Aged(Evict(u), CloseOldest(u, b))
  {
    hide Settle, Live;
    LiveSuffix(u.aging, u.reqs);
    DropAged(u, b, |u.aging| - |Live(u.aging, u.reqs)|, Evict(u), CloseOldest(u, b));
  }

  // The front n places of the queue are stale, and the next one goes too.
  lemma DropAged(u: State, b: Book, n: nat, u': State, b': Book)
    requires Aged(u, b) && n < |u.aging| && b'.taken == b.taken
    requires forall i :: 0 <= i < n ==> u.aging[i] !in u.counts
    requires u'.aging == u.aging[n + 1..] && u'.counts == u.counts - {u.aging[n]}
    requires b'.agingAt == b.agingAt[n + 1..] && b'.since == b.since - {u.aging[n]}
    ensures Aged(u', b')
  {
    forall x | x in b'.since ensures Placed(u', b', x) {
      assert Placed(u, b, x);
      var i :| 0 <= i < |u.aging| && u.aging[i] == x && b.agingAt[i] == b.since[x];
      assert i > n;
      assert u'.aging[i - n - 1] == x && b'.agingAt[i - n - 1] == b'.since[x];
    }
  }

  // Taking one request.
  lemma AcceptKeeps(g: Limits, u: State, b: Book, r: Req)
    requires Linked(u, b) && Inv(g, u, b) && g.maxMerge >= 1 && g.maxEntry >= 1
    ensures Inv(g, Accept(g, u, r), AcceptNote(g, u, b, r))
    ensures Accept(g, u, r).failed == u.failed
  {
    hide Core, Key, CloseFull, CloseOldest, Open, Evict, Take;
    var k := Key(r);
    InvCounts(g, u, b);
    if k in u.counts {
      if u.counts[k] < g.maxMerge {
        JoinKeeps(g, u, b, k);
      } else {
        FullKeeps(g, u, b, k, r);
      }
    } else if |u.counts| >= g.maxEntry {
      VictimIsLive(g, u, b);
      EvictKeeps(g, u, b);
      InsertKeeps(g, Evict(u), CloseOldest(u, b), k, r);
    } else {
      InsertKeeps(g, u, b, k, r);
    }
  }

  lemma InvCounts(g: Limits, u: State, b: Book)
    requires Core(g, u, b)
    ensures |u.counts| <= g.maxEntry
    ensures forall k :: k in u.counts ==> 1 <= u.counts[k] <= g.maxMerge
  {
    hide WaitingFor, CoveredBy, Key, Sum;
  }

  // A flush closes every entry, the least list first.
  ghost function Drained(u: State): State {
    u.(output := u.output + InOrder(u.reqs), counts := map[], reqs := map[])
  }

  lemma {:induction false} CloseAllKeeps(g: Limits, u: State, b: Book)
    requires Covered(u, b) && Counted(g, u, b, 0, 0) && Sending(u, b)
    ensures var b' := CloseAll(u.reqs, b);
            && Covered(Drained(u), b') && Counted(g, Drained(u), b', 0, 0) && Sending(Drained(u), b')
            && b' == b.(owner := b'.owner, sent := b'.sent, since := b'.since)
            && |b'.sent| == |b.sent| + |u.reqs|
    decreases |u.reqs|
  {
    hide Counted, Covered, Sending, Settle, Key, Drained, CloseAll, Shut;
    AreKeyed(g, u, b);
    if u.reqs == map[] {
      assert u.counts == map[];
      NoneToClose(u, b);
    } else {
      var k := NextToClose(u, b);
      var u', b1 := Shut(u, k, u.reqs[k]), Close(b, k, u.reqs[k]);
      CountedSame(g, u, b, 0, u, b, k);
      ShutCovered(u, b, k, u.reqs[k]);
      ShutCounted(g, u, b, k, u.reqs[k], 0);
      ShutSending(u, b, k, u.reqs[k]);
      CloseAllKeeps(g, u', b1);
    }
  }

  lemma NoneToClose(u: State, b: Book)
    requires u.reqs == map[] && u.counts == map[] && |b.owner| == |b.taken|
    ensures Drained(u) == u && CloseAll(u.reqs, b) == b
  {
  }

  lemma NextToClose(u: State, b: Book) returns (k: int)
    requires u.reqs != map[] && |b.owner| == |b.taken| && u.counts.Keys == u.reqs.Keys
    ensures k in u.reqs && |Shut(u, k, u.reqs[k]).reqs| == |u.reqs| - 1
    ensures Drained(Shut(u, k, u.reqs[k])) == Drained(u)
    ensures |Close(b, k, u.reqs[k]).owner| == |Close(b, k, u.reqs[k]).taken|
    ensures CloseAll(u.reqs, b) == CloseAll(Shut(u, k, u.reqs[k]).reqs, Close(b, k, u.reqs[k]))
  {
    hide Settle;
    assert u.reqs.Keys != {};
    k := Least(u.reqs.Keys);
    SettleKeeps(b.taken, b.owner, k, |b.sent|);
    assert |u.reqs - {k}| == |u.reqs| - 1;
    assert u.output + [u.reqs[k]] + InOrder(u.reqs - {k}) == u.output + InOrder(u.reqs);
  }

  lemma AreKeyed(g: Limits, u: State, b: Book)
    requires Counted(g, u, b, 0, 0)
    ensures u.counts.Keys == u.reqs.Keys && |b.owner| == |b.taken|
    ensures forall k :: k in u.reqs ==> Key(u.reqs[k]) == k
  {
  }

  lemma ShutSending(u: State, b: Book, k: int, r: Req)
    requires Sending(u, b) && |b.owner| == |b.taken|
    ensures Sending(Shut(u, k, r), Close(b, k, r))
  {
  }

  lemma FlushKeeps(g: Limits, u: State, b: Book)
    requires Inv(g, u, b) && |b.owner| == |b.taken|
    ensures Inv(g, Flush(u), FlushNote(u, b))
    ensures IsFlushed(Flush(u))
  {
    hide Counted, Sum, CloseAll, InOrder;
    CloseAllKeeps(g, u, b);
    CountedSame(g, Drained(u), CloseAll(u.reqs, b), 0, Flush(u), FlushNote(u, b), 0);
    SumNone();
  }

  predicate Sized(es: seq<Event>) { forall i :: 0 <= i < |es| && es[i].Arrive? ==> Size(es[i].r.a) > 0 }

  predicate Sensible(g: Limits) { g.maxMerge >= 1 && g.maxEntry >= 1 }

  // The queues at the ends of the unit play no part in the rest.
  lemma EndsAside(g: Limits, u: State, b: Book, u': State, b': Book)
    requires Inv(g, u, b) && u' == u.(input := u'.input, output := u'.output) && b' == b.(left := b'.left)
    requires Sending(u', b')
    ensures Inv(g, u', b')
  {
    hide WaitingFor, CoveredBy, Key, Sum;
    forall k | k in b'.since ensures Placed(u', b', k) {
      assert Placed(u, b, k);
    }
  }

  lemma NextKeeps(g: Limits, u: State, b: Book, e: Event)
    requires Sensible(g) && Linked(u, b) && Inv(g, u, b)
    requires u.input != [] ==> Size(u.input[0].a) > 0
    ensures Inv(g, Next(g, u, e), Note(g, u, b, e))
    ensures Next(g, u, e).failed == u.failed
  {
    hide Counted, Covered, Aged, Summed, CloseAll, AcceptNote, Accept, FlushNote;
    match e
    case Arrive(r) => EndsAside(g, u, b, Next(g, u, e), b);
    case Cycle =>
      if u.input != [] {
        var u' := u.(input := u.input[1..]);
        EndsAside(g, u, b, u', b);
        AcceptKeeps(g, u', b, u.input[0].(kind := WriteWatcherList));
      }
    case Leave => EndsAside(g, u, b, Next(g, u, e), Note(g, u, b, e));
    case FlushAll => FlushKeeps(g, u, b);
  }

  // The requests that arrived, as far as their lists and sizes go.
  ghost function Arrivals(es: seq<Event>): seq<Req>
    decreases |es|
  {
    if es == [] then []
    else
      var before, e := es[..|es| - 1], es[|es| - 1];
      Arrivals(before) + if e.Arrive? then [e.r] else []
  }

  // The requests taken are the first that arrived; the rest are in the input.
  ghost predicate TakenInOrder(arrived: seq<Req>, u: State, b: Book)
  {
    && |b.taken| + |u.input| == |arrived|
    && (forall i :: 0 <= i < |b.taken| ==> b.taken[i] == Key(arrived[i]))
    && (forall i :: 0 <= i < |u.input| ==> u.input[i] == arrived[|b.taken| + i])
    && (forall i :: 0 <= i < |arrived| ==> Size(arrived[i].a) > 0)
  }

  // The partition, the counts, the totals and the aging queue, in every run.
  lemma {:induction false} RunKeeps(g: Limits, es: seq<Event>)
    requires Sensible(g) && Sized(es)
    ensures Inv(g, Run(g, es), Books(g, es))
    ensures TakenInOrder(Arrivals(es), Run(g, es), Books(g, es))
    ensures !Run(g, es).failed
    decreases |es|
  {
    hide Inv, Linked, Next, Note, TakenInOrder;
    if es == [] {
      NothingYet(g);
    } else {
      var before, e := es[..|es| - 1], es[|es| - 1];
      RunKeeps(g, before);
      InputSized(Arrivals(before), Run(g, before), Books(g, before));
      NextKeeps(g, Run(g, before), Books(g, before), e);
      NextInOrder(g, Arrivals(before), Run(g, before), Books(g, before), e);
    }
  }

  lemma InputSized(arrived: seq<Req>, u: State, b: Book)
    requires TakenInOrder(arrived, u, b)
    ensures u.input != [] ==> Size(u.input[0].a) > 0
  {
  }

  lemma NextInOrder(g: Limits, arrived: seq<Req>, u: State, b: Book, e: Event)
    requires TakenInOrder(arrived, u, b) && Linked(u, b) && (e.Arrive? ==> Size(e.r.a) > 0)
    ensures TakenInOrder(arrived + if e.Arrive? then [e.r] else [], Next(g, u, e), Note(g, u, b, e))
  {
    hide Key, Settle, Live, Accept, AcceptNote, CloseAll;
    match e
    case Arrive(r) =>
    case Cycle =>
      assert arrived + [] == arrived;
      if u.input != [] {
        var r := u.input[0].(kind := WriteWatcherList);
        AcceptTakes(g, u.(input := u.input[1..]), b, r);
        KindAside(u.input[0]);
      }
    case Leave => assert arrived + [] == arrived;
    case FlushAll =>
      assert arrived + [] == arrived;
      CloseAllTakes(u.reqs, b);
  }

  lemma KindAside(r: Req)
    ensures Key(r.(kind := WriteWatcherList)) == Key(r)
  {
  }

  lemma AcceptTakes(g: Limits, u: State, b: Book, r: Req)
    requires Linked(u, b)
    ensures AcceptNote(g, u, b, r).taken == b.taken + [Key(r)]
    ensures Accept(g, u, r).input == u.input
  {
    hide Key, Settle, Live;
  }

  lemma {:induction false} CloseAllTakes(reqs: map<int, Req>, b: Book)
    requires |b.owner| == |b.taken|
    ensures CloseAll(reqs, b).taken == b.taken
    decreases |reqs|
  {
    if reqs != map[] {
      assert reqs.Keys != {};
      var k := Least(reqs.Keys);
      CloseAllTakes(reqs - {k}, Close(b, k, reqs[k]));
    }
  }

  lemma NothingYet(g: Limits)
    ensures Inv(g, Run(g, []), Books(g, [])) && TakenInOrder([], Run(g, []), Books(g, []))
    ensures Arrivals([]) == [] && !Run(g, []).failed
  {
    hide Inv, TakenInOrder;
    FreshInv(g);
  }

  lemma FreshInv(g: Limits)
    ensures Inv(g, Fresh(), NOTHING) && TakenInOrder([], Fresh(), NOTHING)
  {
    hide Covered, Counted, Summed, Aged, Sending, Key;
    FreshCounted(g);
    FreshSummed(g);
    FreshAged();
  }

  lemma FreshAged()
    ensures Covered(Fresh(), NOTHING) && Aged(Fresh(), NOTHING) && Sending(Fresh(), NOTHING)
  {
  }

  lemma FreshCounted(g: Limits)
    ensures Counted(g, Fresh(), NOTHING, 0, 0)
  {
    hide WaitingFor, CoveredBy, Key;
  }

  lemma FreshSummed(g: Limits)
    ensures Summed(g, Fresh(), NOTHING)
  {
    hide Sum;
    SumNone();
  }

  // Writing through: every request taken is covered by a write to its list that
  // was sent after it was taken, and no write is there without one.
  ghost predicate WrittenThrough(taken: seq<int>, sent: seq<Sent>)
  {
    && (forall i :: 0 <= i < |taken| ==> WrittenFor(sent, taken[i], i))
    && (forall j :: 0 <= j < |sent| ==> CausedBy(taken, sent[j]))
  }

  ghost predicate WrittenFor(sent: seq<Sent>, k: int, i: nat) {
    exists j :: 0 <= j < |sent| && Key(sent[j].r) == k && i < sent[j].at
  }

  ghost predicate CausedBy(taken: seq<int>, s: Sent) {
    exists i :: 0 <= i < |taken| && taken[i] == Key(s.r) && i < s.at
  }

  lemma NoneLiveAllWritten(g: Limits, u: State, b: Book)
    requires Covered(u, b) && Counted(g, u, b, 0, 0) && u.counts == map[]
    ensures WrittenThrough(b.taken, b.sent)
  {
    hide Key, CoveredBy, WaitingFor;
    forall i | 0 <= i < |b.taken| ensures WrittenFor(b.sent, b.taken[i], i) {
      assert b.owner[i].Written?;
      var j := b.owner[i].j;
      assert Key(b.sent[j].r) == b.taken[i] && i < b.sent[j].at;
    }
    forall j | 0 <= j < |b.sent| ensures CausedBy(b.taken, b.sent[j]) {
      var i := SomeCovered(b.owner, j);
      assert b.taken[i] == Key(b.sent[j].r) && i < b.sent[j].at;
    }
  }

  // Once flushed, merging has written everything through.
  lemma FlushWritesThrough(g: Limits, es: seq<Event>)
    requires Sensible(g) && Sized(es)
    ensures WrittenThrough(Books(g, es + [FlushAll]).taken, Books(g, es + [FlushAll]).sent)
    ensures Books(g, es + [FlushAll]).taken == Books(g, es).taken
  {
    hide WrittenThrough, Covered, Counted, CloseAll, Sum, Aged, Summed, Run, Books;
    LastEvent(g, es);
    RunKeeps(g, es + [FlushAll]);
    NoneLiveAllWritten(g, Run(g, es + [FlushAll]), Books(g, es + [FlushAll]));
    CloseAllTakes(Run(g, es).reqs, Books(g, es));
  }

  lemma LastEvent(g: Limits, es: seq<Event>)
    ensures Run(g, es + [FlushAll]) == Flush(Run(g, es))
    ensures Linked(Run(g, es), Books(g, es)) && Books(g, es + [FlushAll]) == FlushNote(Run(g, es), Books(g, es))
  {
    assert (es + [FlushAll])[..|es|] == es;
  }

  lemma {:induction false} SomeCovered(owner: seq<Owner>, j: nat) returns (i: nat)
    requires CoveredBy(owner, j) >= 1
    ensures i < |owner| && owner[i] == Written(j)
    decreases |owner|
  {
    var n := |owner| - 1;
    if owner[n] == Written(j) {
      i := n;
    } else {
      i := SomeCovered(owner[..n], j);
    }
  }

  // The merge arithmetic. Without flushes, nothing is drained and no write is
  // one of a flush.
  lemma MergeBound(g: Limits, es: seq<Event>)
    requires Sensible(g) && Sized(es)
    ensures var u, b := Run(g, es), Books(g, es);
            && |b.taken| == Sum(u.counts) + u.origin + b.full + b.drained
            && |b.taken| <= (g.maxMerge + 1) * u.merged + g.maxMerge * g.maxEntry + b.drained
  {
    hide WaitingFor, CoveredBy, Key, Run, Books, Sum, Aged, Covered;
    RunKeeps(g, es);
    var u, b := Run(g, es), Books(g, es);
    InvCounts(g, u, b);
    SumAtMost(u.counts, g.maxMerge);
    BoundIs(Sum(u.counts), |u.counts|, u.origin, b.full, u.merged, g.maxMerge, g.maxEntry);
  }

  lemma BoundIs(sum: nat, live: nat, origin: nat, full: nat, merged: nat, most: nat, entries: nat)
    requires sum <= most * live && live <= entries && origin <= most * merged && full <= merged
    ensures sum + origin + full <= (most + 1) * merged + most * entries
  {
    assert most * live <= most * entries;
    assert (most + 1) * merged == most * merged + merged;
  }

  lemma {:induction false} NoFlushNoDrain(g: Limits, es: seq<Event>)
    requires FlushAll !in es
    ensures Books(g, es).drained == 0 && Books(g, es).flushes == 0
    decreases |es|
  {
    hide Note, Next;
    if es != [] {
      var before, e := es[..|es| - 1], es[|es| - 1];
      assert forall x :: x in before ==> x in es;
      NoFlushNoDrain(g, before);
      NextNoDrain(g, Run(g, before), Books(g, before), e);
    }
  }

  lemma NextNoDrain(g: Limits, u: State, b: Book, e: Event)
    requires Linked(u, b) && !e.FlushAll?
    ensures Note(g, u, b, e).drained == b.drained && Note(g, u, b, e).flushes == b.flushes
  {
    hide Settle, Live, Key;
  }

  // is_flushed holds exactly if nothing was taken since the last flush, whatever
  // was written since.
  lemma FlushedIff(g: Limits, es: seq<Event>)
    requires Sensible(g) && Sized(es)
    ensures IsFlushed(Run(g, es)) <==> Books(g, es).flushedAt == |Books(g, es).taken|
  {
    hide WaitingFor, CoveredBy, Key, Run, Books, Sum, Summed;
    RunKeeps(g, es);
    var u, b := Run(g, es), Books(g, es);
    if u.aging == [] {
      if u.counts != map[] {
        SomeKey(u.counts);
        var k :| k in u.counts.Keys;
        LiveIsQueued(u, b, k);
        assert false;
      }
      assert u.reqs.Keys == {};
    }
  }

  // The victim of an eviction is the live entry with the earliest place in the
  // aging queue.
  lemma VictimComesFirst(g: Limits, u: State, b: Book)
    requires Linked(u, b) && Core(g, u, b) && u.counts != map[]
    ensures var q := Live(u.aging, u.reqs);
            && q != [] && q[0] in u.counts && Evict(u).counts == u.counts - {q[0]}
            && (forall i :: 0 <= i < |u.aging| && u.aging[i] in u.counts ==> |u.aging| - |q| <= i)
  {
    hide WaitingFor, CoveredBy, Key, Sum, Live, Covered, Summed, Aged;
    VictimIsLive(g, u, b);
    LiveSuffix(u.aging, u.reqs);
    EvictKeeps(g, u, b);
    AreLinked(g, u, b);
  }

  // Entry v is the one that was inserted first.
  ghost predicate Oldest(b: Book, v: int) { v in b.since && forall k :: k in b.since ==> b.since[v] <= b.since[k] }

  // Every other live list comes in the queue after the last place of v.
  ghost predicate OthersFollow(q: seq<int>, live: set<int>, v: int)
  {
    forall k :: k in live && k != v ==> Follows(q, v, k)
  }

  ghost predicate Follows(q: seq<int>, v: int, k: int)
  {
    exists i, j :: 0 <= i < j < |q| && q[i] == v && q[j] == k && LastAt(q, i)
  }

  ghost predicate LastAt(q: seq<int>, i: nat)
    requires i < |q|
  {
    forall x :: i < x < |q| ==> q[x] != q[i]
  }

  // The insertion of a live entry is the last place of its list in the queue.
  lemma OwnPlace(u: State, b: Book, k: int) returns (i: nat)
    requires Aged(u, b) && k in b.since
    ensures i < |u.aging| && u.aging[i] == k && b.agingAt[i] == b.since[k] && LastAt(u.aging, i)
  {
    assert Placed(u, b, k);
    i :| 0 <= i < |u.aging| && u.aging[i] == k && b.agingAt[i] == b.since[k];
  }

  // When the victim, or any live entry, is the one inserted first: no stale
  // place of its list in front of the others decides it.
  lemma OldestIff(u: State, b: Book, v: int)
    requires Aged(u, b) && v in u.counts
    ensures Oldest(b, v) <==> OthersFollow(u.aging, u.counts.Keys, v)
  {
    var i := OwnPlace(u, b, v);
    forall k | k in u.counts.Keys && k != v ensures b.since[v] <= b.since[k] <==> Follows(u.aging, v, k) {
      var j := OwnPlace(u, b, k);
      if Follows(u.aging, v, k) {
        var i', j' :| 0 <= i' < j' < |u.aging| && u.aging[i'] == v && u.aging[j'] == k && LastAt(u.aging, i');
        assert i == i';
      } else {
        assert !(i < j);
      }
    }
  }

  // A request for list k, and the events that bring such requests one by one.
  function WriteTo(k: int): Req {
    Req(WriteWatcherList, Assign(k, [Entry(false, 0, false, Null, None)]), 0, 0)
  }

  function Feed(ks: seq<int>): seq<Event> {
    if ks == [] then [] else Feed(ks[..|ks| - 1]) + [Arrive(WriteTo(ks[|ks| - 1])), Cycle]
  }

  lemma FeedNext(g: Limits, ks: seq<int>, k: int)
    requires Run(g, Feed(ks)).input == []
    ensures Run(g, Feed(ks + [k])) == Accept(g, Run(g, Feed(ks)), WriteTo(k))
  {
    hide Accept;
    assert (ks + [k])[..|ks|] == ks;
    var es, e1 := Feed(ks), Feed(ks) + [Arrive(WriteTo(k))];
    assert Feed(ks + [k]) == e1 + [Cycle];
    assert e1[..|es|] == es && (e1 + [Cycle])[..|e1|] == e1;
    assert Run(g, e1) == Run(g, es).(input := [WriteTo(k)]);
    assert Run(g, e1).(input := Run(g, e1).input[1..]) == Run(g, es);
  }

  lemma {:induction false} FeedSized(ks: seq<int>)
    ensures Sized(Feed(ks))
    decreases |ks|
  {
    if ks != [] { FeedSized(ks[..|ks| - 1]); }
  }

  lemma AcceptNew(g: Limits, u: State, k: int)
    requires k !in u.counts && |u.counts| < g.maxEntry
    ensures Accept(g, u, WriteTo(k)) == Insert(u, k, WriteTo(k))
  {
  }

  lemma AcceptFull(g: Limits, u: State, k: int)
    requires k in u.counts && u.counts[k] == g.maxMerge
    ensures Accept(g, u, WriteTo(k)) == Emit(u, k, WriteTo(k))
  {
  }

  lemma StaleFirst()
    ensures Run(Limits(1, 2), Feed([1])) == State([], [], map[1 := 1], map[1 := WriteTo(1)], [1], 0, 0, false)
  {
    var g := Limits(1, 2);
    assert Run(g, Feed([])) == Fresh();
    hide Key, WriteTo, Run, Feed, Accept;
    FeedNext(g, [], 1);
    AcceptNew(g, Fresh(), 1);
    assert [] + [1] == [1];
  }

  lemma StaleHalf()
    ensures Run(Limits(1, 2), Feed([1, 1])) == State([], [WriteTo(1)], map[], map[], [1], 1, 1, false)
  {
    hide Key, WriteTo, Run, Feed, Accept;
    var g := Limits(1, 2);
    StaleFirst();
    FeedNext(g, [1], 1);
    AcceptFull(g, Run(g, Feed([1])), 1);
    assert [1] + [1] == [1, 1];
  }

  lemma StaleRun()
    ensures Run(Limits(1, 2), Feed([1, 1, 2, 1]))
         == State([], [WriteTo(1)], map[1 := 1, 2 := 1], map[1 := WriteTo(1), 2 := WriteTo(2)], [1, 2, 1], 1, 1, false)
  {
    hide Key, WriteTo, Run, Feed, Accept;
    var g := Limits(1, 2);
    StaleHalf();
    FeedNext(g, [1, 1], 2);
    var u := Insert(Run(g, Feed([1, 1])), 2, WriteTo(2));
    AcceptNew(g, Run(g, Feed([1, 1])), 2);
    assert [1, 1] + [2] == [1, 1, 2];
    FeedNext(g, [1, 1, 2], 1);
    AcceptNew(g, u, 1);
    assert [1, 1, 2] + [1] == [1, 1, 2, 1];
  }

  // A full entry leaves its id in the queue. When the list comes back, its new
  // entry is evicted in place of an older one.
  lemma StaleVictim()
    ensures var g, es := Limits(1, 2), Feed([1, 1, 2, 1]);
            var u, b := Run(g, es), Books(g, es);
            && u.counts.Keys == {1, 2} && Evict(u).counts.Keys == {2}
            && Oldest(b, 2) && !Oldest(b, 1)
  {
    hide WriteTo, Run, Feed, Books, Oldest, Covered, Counted, Summed, Aged;
    var g, es := Limits(1, 2), Feed([1, 1, 2, 1]);
    StaleRun();
    FeedSized([1, 1, 2, 1]);
    RunKeeps(g, es);
    var u, b := Run(g, es), Books(g, es);
    OldestIff(u, b, 1);
    OldestIff(u, b, 2);
    assert u.aging == [1, 2, 1];
    assert u.aging[1] == 2 && u.aging[2] == 1 && LastAt(u.aging, 1);
    assert !Follows(u.aging, 1, 2);
  }
}
