// Which request a merged write is. The write that stands for several requests is
// the one that opened their entry; only a write caused by a full entry is the
// request that found it full.
module MergedWrites {
  import opened Bags
  import opened Forest
  import opened ListWriter
  import opened Merging
  import opened Tokens

  // A request as the writer keeps it.
  function Listed(r: Req): Req { r.(kind := WriteWatcherList) }

  // The live entry of list k holds the first of the requests that wait for it.
  ghost predicate Opened(arrived: seq<Req>, u: State, b: Book, k: int)
    requires |b.owner| == |b.taken| && k in u.reqs
  {
    && k in b.since
    && var i := b.since[k];
       && i < |b.owner| && i < |arrived|
       && b.owner[i].Waiting? && b.taken[i] == k && u.reqs[k] == Listed(arrived[i])
       && forall x :: 0 <= x < i && b.owner[x].Waiting? ==> b.taken[x] != k
  }

  // Write j is request i, one of those it stands for: the last when it stands for
  // more than an entry holds, and was sent when that one came; else the first.
  ghost predicate StandsAt(g: Limits, arrived: seq<Req>, b: Book, j: nat, i: nat)
    requires j < |b.sent|
  {
    && i < |b.owner| && i < |arrived|
    && b.owner[i] == Written(j) && b.sent[j].r == Listed(arrived[i])
    && if CoveredBy(b.owner, j) == g.maxMerge + 1 then i + 1 == b.sent[j].at
       else forall x :: 0 <= x < i ==> b.owner[x] != Written(j)
  }

  ghost predicate Stands(g: Limits, arrived: seq<Req>, b: Book, j: nat)
    requires j < |b.sent|
  {
    exists i :: StandsAt(g, arrived, b, j, i)
  }

  ghost predicate Rep(g: Limits, arrived: seq<Req>, u: State, b: Book)
  {
    && |b.owner| == |b.taken| <= |arrived|
    && (forall k :: k in u.reqs ==> Opened(arrived, u, b, k))
    && (forall j :: 0 <= j < |b.sent| ==> Stands(g, arrived, b, j))
    && (forall i :: 0 <= i < |b.owner| && b.owner[i].Written? ==> b.owner[i].j < |b.sent|)
  }

  // Another request is taken, for an entry or for none.
  lemma TakeRep(g: Limits, arrived: seq<Req>, u: State, b: Book, k: int)
    requires Rep(g, arrived, u, b) && |b.taken| < |arrived|
    ensures Rep(g, arrived, u, Take(b, k))
  {
    hide CoveredBy, WaitingFor, Listed;
    TakeCounts(b.taken, b.owner, k);
    var b' := Take(b, k);
    forall x | x in u.reqs ensures Opened(arrived, u, b', x) {
      assert Opened(arrived, u, b, x);
    }
    forall j | 0 <= j < |b'.sent| ensures Stands(g, arrived, b', j) {
      assert Stands(g, arrived, b, j);
      var i: nat :| StandsAt(g, arrived, b, j, i);
      assert StandsAt(g, arrived, b', j, i);
    }
  }

  // The entry of list k is closed by a write that is request i.
  lemma CloseRep(g: Limits, arrived: seq<Req>, u: State, b: Book, k: int, r: Req, i: nat)
    requires Rep(g, arrived, u, b) && i < |b.owner| && i < |arrived|
    requires b.owner[i].Waiting? && b.taken[i] == k && r == Listed(arrived[i])
    requires if WaitingFor(b.taken, b.owner, k) == g.maxMerge + 1 then i + 1 == |b.taken|
             else forall x :: 0 <= x < i && b.owner[x].Waiting? ==> b.taken[x] != k
    ensures Rep(g, arrived, Shut(u, k, r), Close(b, k, r))
  {
    hide CoveredBy, WaitingFor, Listed;
    var n := |b.sent|;
    SettleCounts(b.taken, b.owner, k, n);
    var u', b' := Shut(u, k, r), Close(b, k, r);
    SettleKeeps(b.taken, b.owner, k, n);
    forall x | x in u'.reqs ensures Opened(arrived, u', b', x) {
      assert Opened(arrived, u, b, x);
    }
    forall j | 0 <= j < |b'.sent| ensures Stands(g, arrived, b', j) {
      if j < n {
        assert Stands(g, arrived, b, j);
        var o: nat :| StandsAt(g, arrived, b, j, o);
        assert StandsAt(g, arrived, b', j, o);
      } else {
        assert StandsAt(g, arrived, b', j, i);
      }
    }
  }

  // The totals and the queues play no part in it.
  lemma RepSame(g: Limits, arrived: seq<Req>, u: State, b: Book, u': State, b': Book)
    requires Rep(g, arrived, u, b) && u'.reqs == u.reqs
    requires b'.taken == b.taken && b'.owner == b.owner && b'.sent == b.sent
    requires forall k :: k in u.reqs ==> k in b'.since && k in b.since && b'.since[k] == b.since[k]
    ensures Rep(g, arrived, u', b')
  {
    hide CoveredBy, Listed;
    forall k | k in u'.reqs ensures Opened(arrived, u', b', k) {
      assert Opened(arrived, u, b, k);
    }
    forall j | 0 <= j < |b'.sent| ensures Stands(g, arrived, b', j) {
      assert Stands(g, arrived, b, j);
      var i: nat :| StandsAt(g, arrived, b, j, i);
      assert StandsAt(g, arrived, b', j, i);
    }
  }

  // The entry is closed by the request that opened it.
  lemma CloseOwn(g: Limits, arrived: seq<Req>, u: State, b: Book, k: int)
    requires Rep(g, arrived, u, b) && Counted(g, u, b, 0, 0) && k in u.reqs
    ensures Rep(g, arrived, Shut(u, k, u.reqs[k]), Close(b, k, u.reqs[k]))
  {
    hide CoveredBy, WaitingFor, Key, Listed;
    assert Opened(arrived, u, b, k);
    CloseRep(g, arrived, u, b, k, u.reqs[k], b.since[k]);
  }

  lemma InsertRep(g: Limits, arrived: seq<Req>, u: State, b: Book, k: int, r: Req)
    requires Rep(g, arrived, u, b) && Covered(u, b) && k !in u.counts && |b.taken| < |arrived|
    requires r == Listed(arrived[|b.taken|]) && u.counts.Keys == u.reqs.Keys
    ensures Rep(g, arrived, Insert(u, k, r), Open(b, k))
  {
    hide CoveredBy, WaitingFor, Listed;
    TakeRep(g, arrived, u, b, k);
    var b1, u', b' := Take(b, k), Insert(u, k, r), Open(b, k);
    forall x | x in u'.reqs ensures Opened(arrived, u', b', x) {
      if x != k { assert Opened(arrived, u, b1, x); }
    }
    forall j | 0 <= j < |b'.sent| ensures Stands(g, arrived, b', j) {
      assert Stands(g, arrived, b1, j);
      var i: nat :| StandsAt(g, arrived, b1, j, i);
      assert StandsAt(g, arrived, b', j, i);
    }
  }

  lemma FullRep(g: Limits, arrived: seq<Req>, u: State, b: Book, k: int, r: Req)
    requires Rep(g, arrived, u, b) && Counted(g, u, b, 0, 0) && |b.taken| < |arrived|
    requires k in u.counts && u.counts[k] == g.maxMerge && r == Listed(arrived[|b.taken|])
    ensures Rep(g, arrived, Emit(u, k, r), CloseFull(b, k, r))
  {
    hide CoveredBy, WaitingFor, Key, Listed, Settle, Counted;
    WaitsFor(g, u, b, k);
    TakeRep(g, arrived, u, b, k);
    TakeCounts(b.taken, b.owner, k);
    CloseRep(g, arrived, u, Take(b, k), k, r, |b.taken|);
    RepFields(g, arrived, Shut(u, k, r), Close(Take(b, k), k, r));
    RepSame(g, arrived, Shut(u, k, r), Close(Take(b, k), k, r), Emit(u, k, r), CloseFull(b, k, r));
  }

  lemma WaitsFor(g: Limits, u: State, b: Book, k: int)
    requires Counted(g, u, b, 0, 0) && k in u.counts
    ensures |b.owner| == |b.taken| && WaitingFor(b.taken, b.owner, k) == u.counts[k]
  {
    hide WaitingFor, CoveredBy, Key;
  }

  lemma RepFields(g: Limits, arrived: seq<Req>, u: State, b: Book)
    requires Rep(g, arrived, u, b)
    ensures forall k :: k in u.reqs ==> k in b.since
  {
    hide CoveredBy, Listed;
    forall k | k in u.reqs ensures k in b.since {
      assert Opened(arrived, u, b, k);
    }
  }

  lemma EvictRep(g: Limits, arrived: seq<Req>, u: State, b: Book)
    requires Linked(u, b) && Core(g, u, b) && u.counts != map[] && Rep(g, arrived, u, b)
    ensures Live(u.aging, u.reqs) != []
    ensures Rep(g, arrived, Evict(u), CloseOldest(u, b))
  {
    hide CoveredBy, WaitingFor, Key, Sum, Live, Aged, Summed, Rep, Covered, Settle, Counted;
    VictimIsLive(g, u, b);
    LiveSuffix(u.aging, u.reqs);
    var k := Live(u.aging, u.reqs)[0];
    CloseOwn(g, arrived, u, b, k);
    RepFields(g, arrived, Shut(u, k, u.reqs[k]), Close(b, k, u.reqs[k]));
    RepSame(g, arrived, Shut(u, k, u.reqs[k]), Close(b, k, u.reqs[k]), Evict(u), CloseOldest(u, b));
  }

  lemma JoinRep(g: Limits, arrived: seq<Req>, u: State, b: Book, k: int)
    requires Rep(g, arrived, u, b) && |b.taken| < |arrived| && k in u.counts
    ensures Rep(g, arrived, Joined(u, k), Take(b, k))
  {
    hide Rep;
    TakeRep(g, arrived, u, b, k);
    RepFields(g, arrived, u, Take(b, k));
    RepSame(g, arrived, u, Take(b, k), Joined(u, k), Take(b, k));
  }

  lemma AcceptRep(g: Limits, arrived: seq<Req>, u: State, b: Book, r: Req)
    requires Linked(u, b) && Inv(g, u, b) && Sensible(g) && Rep(g, arrived, u, b)
    requires |b.taken| < |arrived| && r == Listed(arrived[|b.taken|])
    ensures Rep(g, arrived, Accept(g, u, r), AcceptNote(g, u, b, r))
  {
    hide Core, Key, CloseFull, CloseOldest, Open, Evict, Take, Rep, Listed;
    var k := Key(r);
    CoreParts(g, u, b);
    if k in u.counts {
      if u.counts[k] < g.maxMerge {
        JoinRep(g, arrived, u, b, k);
      } else {
        FullRep(g, arrived, u, b, k, r);
      }
    } else if |u.counts| >= g.maxEntry {
      VictimIsLive(g, u, b);
      EvictKeeps(g, u, b);
      EvictRep(g, arrived, u, b);
      EvictTakes(u, b);
      CoreParts(g, Evict(u), CloseOldest(u, b));
      InsertRep(g, arrived, Evict(u), CloseOldest(u, b), k, r);
    } else {
      InsertRep(g, arrived, u, b, k, r);
    }
  }

  lemma EvictTakes(u: State, b: Book)
    requires Linked(u, b)
    ensures CloseOldest(u, b).taken == b.taken
  {
    hide Settle, Live;
  }

  lemma CoreParts(g: Limits, u: State, b: Book)
    requires Core(g, u, b)
    ensures Covered(u, b) && Counted(g, u, b, 0, 0) && u.counts.Keys == u.reqs.Keys
    ensures forall k :: k in u.counts ==> u.counts[k] <= g.maxMerge
  {
    hide CoveredBy, WaitingFor, Key, Sum;
  }

  lemma {:induction false} CloseAllRep(g: Limits, arrived: seq<Req>, u: State, b: Book)
    requires Covered(u, b) && Counted(g, u, b, 0, 0) && Rep(g, arrived, u, b)
    ensures Rep(g, arrived, Drained(u), CloseAll(u.reqs, b))
    decreases |u.reqs|
  {
    hide Counted, Covered, Settle, Key, Drained, CloseAll, Shut, Rep;
    AreKeyed(g, u, b);
    if u.reqs == map[] {
      assert u.counts == map[];
      NoneToClose(u, b);
    } else {
      var k := NextToClose(u, b);
      CountedSame(g, u, b, 0, u, b, k);
      ShutCovered(u, b, k, u.reqs[k]);
      ShutCounted(g, u, b, k, u.reqs[k], 0);
      CloseOwn(g, arrived, u, b, k);
      CloseAllRep(g, arrived, Shut(u, k, u.reqs[k]), Close(b, k, u.reqs[k]));
    }
  }

  lemma FlushRep(g: Limits, arrived: seq<Req>, u: State, b: Book)
    requires Linked(u, b) && Inv(g, u, b) && Rep(g, arrived, u, b)
    ensures Rep(g, arrived, Flush(u), FlushNote(u, b))
  {
    hide Counted, Covered, Aged, Summed, Sum, CloseAll, InOrder, Rep;
    CloseAllRep(g, arrived, u, b);
    RepSame(g, arrived, Drained(u), CloseAll(u.reqs, b), Flush(u), FlushNote(u, b));
  }

  lemma MoreArrive(g: Limits, arrived: seq<Req>, more: seq<Req>, u: State, b: Book)
    requires Rep(g, arrived, u, b)
    ensures Rep(g, arrived + more, u, b)
  {
    hide CoveredBy, Listed;
    forall k | k in u.reqs ensures Opened(arrived + more, u, b, k) {
      assert Opened(arrived, u, b, k);
    }
    forall j | 0 <= j < |b.sent| ensures Stands(g, arrived + more, b, j) {
      assert Stands(g, arrived, b, j);
      var i: nat :| StandsAt(g, arrived, b, j, i);
      assert StandsAt(g, arrived + more, b, j, i);
    }
  }

  lemma NextRep(g: Limits, arrived: seq<Req>, u: State, b: Book, e: Event)
    requires Sensible(g) && Linked(u, b) && Inv(g, u, b) && TakenInOrder(arrived, u, b) && Rep(g, arrived, u, b)
    ensures Rep(g, arrived + if e.Arrive? then [e.r] else [], Next(g, u, e), Note(g, u, b, e))
  {
    hide Rep, Accept, AcceptNote, FlushNote, Flush, Core, Inv, TakenInOrder, Listed;
    assert arrived + [] == arrived;
    match e
    case Arrive(r) =>
      MoreArrive(g, arrived, [r], u, b);
      RepAside(g, arrived + [r], u, b, Next(g, u, e), b);
    case Cycle =>
      if u.input != [] {
        var u' := u.(input := u.input[1..]);
        NextIn(arrived, u, b);
        RepAside(g, arrived, u, b, u', b);
        InvAside(g, u, b, u');
        AcceptRep(g, arrived, u', b, Listed(u.input[0]));
        KindIs(u.input[0]);
      }
    case Leave => RepAside(g, arrived, u, b, Next(g, u, e), Note(g, u, b, e));
    case FlushAll => FlushRep(g, arrived, u, b);
  }

  lemma KindIs(r: Req)
    ensures Listed(r) == r.(kind := WriteWatcherList)
  {
  }

  lemma NextIn(arrived: seq<Req>, u: State, b: Book)
    requires TakenInOrder(arrived, u, b) && u.input != []
    ensures |b.taken| < |arrived| && u.input[0] == arrived[|b.taken|] && Size(u.input[0].a) > 0
  {
    hide Key;
  }

  lemma InvAside(g: Limits, u: State, b: Book, u': State)
    requires Inv(g, u, b) && u' == u.(input := u'.input)
    ensures Inv(g, u', b)
  {
    hide WaitingFor, CoveredBy, Key, Sum, Counted, Covered, Aged, Summed;
    EndsAside(g, u, b, u', b);
  }

  lemma RepAside(g: Limits, arrived: seq<Req>, u: State, b: Book, u': State, b': Book)
    requires Rep(g, arrived, u, b) && u'.reqs == u.reqs && b' == b.(left := b'.left)
    ensures Rep(g, arrived, u', b')
  {
    hide Rep;
    RepFields(g, arrived, u, b);
    RepSame(g, arrived, u, b, u', b');
  }

  // In every run the writes that leave are requests that came, each one of those
  // it stands for: the first, unless an entry was full, and then the last.
  lemma {:induction false} WritesAreRequests(g: Limits, es: seq<Event>)
    requires Sensible(g) && Sized(es)
    ensures Rep(g, Arrivals(es), Run(g, es), Books(g, es))
    decreases |es|
  {
    hide Rep, Inv, Linked, Next, Note, TakenInOrder;
    if es == [] {
      NothingRep(g);
    } else {
      var before, e := es[..|es| - 1], es[|es| - 1];
      WritesAreRequests(g, before);
      RunKeeps(g, before);
      NextRep(g, Arrivals(before), Run(g, before), Books(g, before), e);
    }
  }

  lemma NothingRep(g: Limits)
    ensures Rep(g, [], Fresh(), NOTHING)
  {
  }

  // Taking a request sends a write exactly if the entry of its list is full, or
  // there is none and the table is full; and then it sends one.
  lemma SendsIff(g: Limits, es: seq<Event>)
    requires Sensible(g) && Sized(es) && Run(g, es).input != []
    ensures var u := Run(g, es);
            var k, sent := Key(u.input[0]), |Run(g, es + [Cycle]).output| - |u.output|;
            sent == if (if k in u.counts then u.counts[k] == g.maxMerge else |u.counts| == g.maxEntry) then 1 else 0
  {
    hide Books, WaitingFor, CoveredBy, Key, Summed, Aged, Sending, Covered;
    var u, b := Run(g, es), Books(g, es);
    assert (es + [Cycle])[..|es|] == es;
    RunKeeps(g, es);
    NextIn(Arrivals(es), u, b);
    KeyIs(u.input[0]);
    CoreParts(g, u, b);
    if |u.counts| >= g.maxEntry {
      VictimIsLive(g, u, b);
    }
  }

  lemma KeyIs(r: Req)
    ensures Key(Listed(r)) == Key(r)
  {
  }

  // A flush sends the entries by their lists, the least first.
  lemma {:induction false} InOrderAscends(reqs: map<int, Req>)
    requires forall k :: k in reqs ==> Key(reqs[k]) == k
    ensures |InOrder(reqs)| == |reqs|
    ensures forall i :: 0 <= i < |InOrder(reqs)| ==> Key(InOrder(reqs)[i]) in reqs
    ensures forall i, j :: 0 <= i < j < |InOrder(reqs)| ==> Key(InOrder(reqs)[i]) < Key(InOrder(reqs)[j])
    decreases |reqs|
  {
    hide Key;
    if reqs != map[] {
      assert reqs.Keys != {};
      var k := Least(reqs.Keys);
      InOrderAscends(reqs - {k});
      assert |reqs - {k}| == |reqs| - 1;
      var rest := InOrder(reqs - {k});
      assert InOrder(reqs) == [reqs[k]] + rest;
      forall j | 0 <= j < |rest| ensures k < Key(rest[j]) {
        assert Key(rest[j]) in reqs.Keys;
      }
    }
  }

  lemma FlushAscends(g: Limits, es: seq<Event>)
    requires Sensible(g) && Sized(es)
    ensures var before, after := Run(g, es), Run(g, es + [FlushAll]);
            var n := |before.output|;
            && |after.output| == n + |before.reqs| && after.output[..n] == before.output
            && forall i, j :: n <= i < j < |after.output| ==> Key(after.output[i]) < Key(after.output[j])
  {
    hide Run, Books, InOrder, WaitingFor, CoveredBy, Key, Summed, Aged, Covered;
    RunKeeps(g, es);
    LastEvent(g, es);
    InOrderAscends(Run(g, es).reqs);
  }
}
