// The list writer as the object it is in the source.
module ListWriterUnit {
  import opened Forest
  import opened Tokens
  import opened ListWriter

  class Unit {
    var inRequest: seq<Req>
    var outMemRequest: seq<Req>
    var currentMap: map<int, nat>
    var currentReq: map<int, Req>
    var entryAgingQueue: seq<int>
    var totalOriginPackage: nat
    var totalMergedPackage: nat
    var thrown: bool
    const limits: Limits

    constructor (maxMerge: nat, maxEntry: nat)
      ensures View() == Fresh() && limits == Limits(maxMerge, maxEntry)
    {
      inRequest, outMemRequest, entryAgingQueue := [], [], [];
      currentMap, currentReq := map[], map[];
      totalOriginPackage, totalMergedPackage, thrown := 0, 0, false;
      limits := Limits(maxMerge, maxEntry);
    }

    ghost function View(): State
      reads this
    {
      State(inRequest, outMemRequest, currentMap, currentReq, entryAgingQueue,
            totalOriginPackage, totalMergedPackage, thrown)
    }

    // The source skips stale ids without a test for the end of the queue. In
    // every run a live id comes first (Merging.VictimIsLive).
    ghost predicate CanEvict()
      reads this
    {
      var q := Live(entryAgingQueue, currentReq);
      q != [] && q[0] in currentMap
    }

    method EvictOldest()
      requires CanEvict()
      modifies `outMemRequest, `currentMap, `currentReq, `entryAgingQueue, `totalOriginPackage, `totalMergedPackage
      ensures View() == Evict(old(View()))
    {
      LiveSuffix(entryAgingQueue, currentReq);
      while entryAgingQueue[0] !in currentReq
        modifies `entryAgingQueue
        invariant CanEvict() && entryAgingQueue != []
        invariant Live(entryAgingQueue, currentReq) == old(Live(entryAgingQueue, currentReq))
        decreases |entryAgingQueue|
      {
        entryAgingQueue := entryAgingQueue[1..];
      }
      var oldest := entryAgingQueue[0];
      entryAgingQueue := entryAgingQueue[1..];
      outMemRequest := outMemRequest + [currentReq[oldest]];
      totalOriginPackage := totalOriginPackage + currentMap[oldest];
      totalMergedPackage := totalMergedPackage + 1;
      currentReq := currentReq - {oldest};
      currentMap := currentMap - {oldest};
    }

    method DoCycle() returns (busy: bool)
      requires inRequest != [] && Key(inRequest[0]) !in currentMap && |currentMap| >= limits.maxEntry ==> CanEvict()
      modifies this
      ensures View() == Step(limits, old(View()))
      ensures busy == (old(inRequest) != [])
    {
      busy := inRequest != [];
      if busy {
        var req := inRequest[0].(kind := WriteWatcherList);
        inRequest := inRequest[1..];
        if Size(req.a) == 0 {
          thrown := true;
          return;
        }
        var value := Key(req);
        if value in currentMap {
          if currentMap[value] < limits.maxMerge {
            currentMap := currentMap[value := currentMap[value] + 1];
          } else {
            outMemRequest := outMemRequest + [req];
            totalOriginPackage := totalOriginPackage + currentMap[value];
            totalMergedPackage := totalMergedPackage + 1;
            currentMap := currentMap - {value};
            currentReq := currentReq - {value};
          }
        } else {
          if |currentMap| >= limits.maxEntry { EvictOldest(); }
          entryAgingQueue := entryAgingQueue + [value];
          currentMap := currentMap[value := 1];
          currentReq := currentReq[value := req];
        }
      }
    }

    method FlushAll()
      modifies `outMemRequest, `currentMap, `currentReq, `entryAgingQueue
      ensures View() == Flush(old(View()))
    {
      entryAgingQueue := [];
      var rest := currentReq;
      while rest != map[]
        modifies `outMemRequest
        invariant outMemRequest + InOrder(rest) == old(outMemRequest) + InOrder(currentReq)
        decreases |rest|
      {
        assert rest.Keys != {};
        var k := Least(rest.Keys);
        outMemRequest := outMemRequest + [rest[k]];
        rest := rest - {k};
      }
      currentReq, currentMap := map[], map[];
    }

    predicate Flushed()
      reads this
      ensures Flushed() <==> IsFlushed(View())
    {
      currentReq == map[] && currentMap == map[] && entryAgingQueue == []
    }

    predicate IsEmpty()
      reads this
      ensures IsEmpty() <==> Empty(View())
    {
      inRequest == [] && outMemRequest == []
    }
  }
}
