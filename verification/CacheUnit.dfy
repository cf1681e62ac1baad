// cache_interface as the object it is in the source.
module CacheUnit {
  import opened Forest
  import opened Cache
  import opened CacheCycle
  import M = Memory

  class CacheInterface {
    var inRequestQueues: seq<seq<Access>>
    var delayRespQueues: seq<seq<Timed>>
    var outRespQueues: seq<seq<Access>>
    var addrToReq: map<nat, seq<Access>>
    var missQueue: seq<M.Fetch>
    var dramRespQueue: seq<nat>
    var internalCycle: nat
    var currentParallelRequests: int
    var assertFailed: bool
    const mem: M.Wrapper
    const nPartition: nat

    // What the cache arrays hold reserved.
    ghost var reserved: seq<set<nat>>

    constructor (n: nat)
      requires n > 0
      ensures Valid() && View() == Start(n) && nPartition == n && fresh(mem)
    {
      inRequestQueues := seq(n, _ => []);
      delayRespQueues := seq(n, _ => []);
      outRespQueues := seq(n, _ => []);
      addrToReq, missQueue, dramRespQueue := map[], [], [];
      internalCycle, currentParallelRequests, assertFailed := 0, 0, false;
      mem := new M.Wrapper();
      nPartition := n;
      reserved := seq(n, _ => {});
    }

    ghost function View(): State
      reads this, mem
    {
      State(inRequestQueues, delayRespQueues, outRespQueues, addrToReq, missQueue, dramRespQueue,
            mem.View(), reserved, internalCycle, currentParallelRequests, assertFailed)
    }

    ghost predicate Valid()
      reads this, mem
    {
      Shape(View()) && |inRequestQueues| == nPartition
    }

    // One turn of the loop over the delay queues.
    method SendDue(i: nat) returns (busy: bool)
      requires Valid() && i < nPartition
      modifies `delayRespQueues, `outRespQueues
      ensures Valid() && View() == Apply(old(View()), DelayToOut(i))
      ensures forall k :: 0 <= k < nPartition && k != i ==> delayRespQueues[k] == old(delayRespQueues)[k]
      ensures busy <==> old(delayRespQueues)[i] != []
    {
      busy := delayRespQueues[i] != [];
      if busy {
        var head := delayRespQueues[i][0];
        if internalCycle > head.since + CACHE_DELAY {
          outRespQueues := outRespQueues[i := outRespQueues[i] + [head.x]];
          delayRespQueues := delayRespQueues[i := delayRespQueues[i][1..]];
        }
      }
    }

    method FromDelayRespToOut() returns (busy: bool)
      requires Valid()
      modifies `delayRespQueues, `outRespQueues
      ensures Valid() && View() == DelaysFrom(old(View()), 0)
      ensures busy <==> exists i :: 0 <= i < nPartition && old(delayRespQueues)[i] != []
    {
      busy := false;
      var i := 0;
      while i < nPartition
        invariant Valid() && i <= nPartition
        invariant DelaysFrom(View(), i) == DelaysFrom(old(View()), 0)
        invariant forall k :: i <= k < nPartition ==> delayRespQueues[k] == old(delayRespQueues)[k]
        invariant busy <==> exists k :: 0 <= k < i && old(delayRespQueues)[k] != []
      {
        var sent := SendDue(i);
        busy := busy || sent;
        i := i + 1;
      }
    }

    // The waiting requests go to the delay queue of partition p, one by one.
    method Release(p: nat, v: seq<Access>)
      requires Valid() && p < nPartition
      modifies `delayRespQueues
      ensures delayRespQueues == old(delayRespQueues)[p := old(delayRespQueues)[p] + Stamp(internalCycle, v)]
    {
      var k := 0;
      while k < |v|
        invariant k <= |v| && |delayRespQueues| == nPartition
        invariant forall j :: 0 <= j < nPartition && j != p ==> delayRespQueues[j] == old(delayRespQueues)[j]
        invariant delayRespQueues[p] == old(delayRespQueues)[p] + Stamp(internalCycle, v[..k])
      {
        delayRespQueues := delayRespQueues[p := delayRespQueues[p] + [Timed(internalCycle, v[k])]];
        assert Stamp(internalCycle, v[..k + 1]) == Stamp(internalCycle, v[..k]) + [Timed(internalCycle, v[k])];
        k := k + 1;
      }
      assert v[..|v|] == v;
    }

    method FromDramRespToResp() returns (busy: bool)
      requires Valid()
      modifies `dramRespQueue, `delayRespQueues, `addrToReq, `reserved, `assertFailed
      ensures Valid() && View() == Apply(old(View()), DramToResp)
      ensures busy <==> Enabled(old(View()), DramToResp)
    {
      busy := false;
      if dramRespQueue != [] {
        var addr := dramRespQueue[0];
        var p := Part(addr, nPartition);
        if |delayRespQueues[p]| < DELAY_SIZE {
          busy := true;
          dramRespQueue := dramRespQueue[1..];
          reserved := reserved[p := reserved[p] - {addr}];
          var v := if addr in addrToReq then addrToReq[addr] else [];
          if v == [] { assertFailed := true; }
          Release(p, v);
          addrToReq := addrToReq - {addr};
        }
      }
    }

    method FromMissQToDram() returns (busy: bool)
      requires Valid()
      modifies `missQueue, `currentParallelRequests, mem
      ensures Valid() && View() == Apply(old(View()), MissToDram)
      ensures busy <==> old(missQueue) != []
    {
      busy := missQueue != [];
      if busy {
        var f := missQueue[0];
        missQueue := missQueue[1..];
        currentParallelRequests := currentParallelRequests + 1;
        mem.SendOne(f.addr, f.read);
      }
    }

    // One turn of the loop over the ports of partition i.
    method TryFront(i: nat, answer: Outcome)
      requires Valid() && Enabled(View(), Probe(i, answer))
      modifies `inRequestQueues, `delayRespQueues, `addrToReq, `missQueue, `reserved, `assertFailed
      ensures Valid() && View() == ProbeStep(old(View()), i, answer)
    {
      var req := inRequestQueues[i][0];
      var blockAddr := Block(req.addr);
      if answer.ResFail? {
        return;
      }
      var waiting := if blockAddr in addrToReq then addrToReq[blockAddr] else [];
      if req.write {
        if answer.Miss? && answer.dirty.Some? {
          missQueue := missQueue + [M.Fetch(false, answer.dirty.value)];
        }
      } else {
        match answer
        case Hit =>
          delayRespQueues := delayRespQueues[i := delayRespQueues[i] + [Timed(internalCycle, req)]];
        case HitReserved =>
          if waiting == [] { assertFailed := true; }
          addrToReq := addrToReq[blockAddr := waiting + [req]];
        case Miss(dirty) =>
          if waiting != [] { assertFailed := true; }
          addrToReq := addrToReq[blockAddr := waiting + [req]];
          if dirty.Some? { missQueue := missQueue + [M.Fetch(false, dirty.value)]; }
          missQueue := missQueue + [M.Fetch(true, blockAddr)];
          reserved := reserved[i := reserved[i] + {blockAddr}];
      }
      inRequestQueues := inRequestQueues[i := inRequestQueues[i][1..]];
    }

    method FromInToCache(answers: seq<seq<Outcome>>) returns (busy: bool)
      requires Valid() && |answers| == nPartition
      modifies `inRequestQueues, `delayRespQueues, `addrToReq, `missQueue, `reserved, `assertFailed
      ensures Valid() && View() == InsFrom(old(View()), 0, answers)
    {
      busy := false;
      var i := 0;
      while i < nPartition
        invariant Valid() && i <= nPartition
        invariant InsFrom(View(), i, answers) == InsFrom(old(View()), 0, answers)
      {
        ghost var before := View();
        var port := 0;
        while inRequestQueues[i] != [] && |missQueue| < MISS_SIZE && port < |answers[i]|
          invariant Valid() && port <= |answers[i]|
          invariant PortsOf(View(), i, answers[i][port..]) == PortsOf(before, i, answers[i])
          decreases |answers[i]| - port
        {
          busy := true;
          assert answers[i][port..][1..] == answers[i][port + 1..];
          TryFront(i, answers[i][port]);
          port := port + 1;
        }
        assert View() == PortsOf(before, i, answers[i]);
        i := i + 1;
      }
    }

    method DrainMemory()
      requires Valid()
      modifies `dramRespQueue, `currentParallelRequests, `assertFailed, mem
      ensures Valid() && View() == DrainAll(old(View()))
    {
      while mem.outQueue != []
        invariant Valid() && DrainAll(View()) == DrainAll(old(View()))
        decreases |mem.outQueue|
      {
        ghost var before := View();
        currentParallelRequests := currentParallelRequests - 1;
        if currentParallelRequests < 0 { assertFailed := true; }
        var addr := mem.PopOne();
        dramRespQueue := dramRespQueue + [addr];
        assert View() == Apply(before, MemDrain);
      }
    }

    method DoCycle(o: Oracle) returns (busy: bool)
      requires Valid() && |o.answers| == nPartition
      modifies this, mem
      ensures Valid() && View() == Cycle(old(View()), o)
    {
      internalCycle := internalCycle + 1;
      assert View() == Apply(old(View()), Tick);
      busy := mem.DoCycle(o.accepts, o.finished);
      DrainMemory();
      assert View() == Front(old(View()), o);
      var b1 := FromDelayRespToOut();
      var b2 := FromDramRespToResp();
      var b3 := FromMissQToDram();
      assert View() == Middle(Front(old(View()), o));
      var b4 := FromInToCache(o.answers);
      busy := busy || b1 || b2 || b3 || b4;
    }

    predicate RecieveReady(i: nat)
      requires i < |inRequestQueues|
      reads this
    {
      |inRequestQueues[i]| < IN_SIZE
    }

    // The network hands over a request only when the partition is ready.
    method Receive(i: nat, x: Access) returns (ok: bool)
      requires Valid() && i < nPartition
      modifies `inRequestQueues
      ensures Valid() && View() == if ok then Apply(old(View()), Arrive(i, x)) else old(View())
      ensures |inRequestQueues[i]| == if ok then |old(inRequestQueues)[i]| + 1 else |old(inRequestQueues)[i]|
      ensures ok ==> |inRequestQueues[i]| <= 64
      ensures !ok ==> |inRequestQueues[i]| >= 64
    {
      ok := RecieveReady(i);
      if ok { inRequestQueues := inRequestQueues[i := inRequestQueues[i] + [x]]; }
    }

    method IsEmpty() returns (e: bool)
      requires Valid()
      ensures e <==> Empty(View())
    {
      e := true;
      var i := 0;
      while i < nPartition
        invariant i <= nPartition
        invariant e <==> forall k :: 0 <= k < i ==>
          delayRespQueues[k] == [] && inRequestQueues[k] == [] && outRespQueues[k] == []
      {
        e := e && delayRespQueues[i] == [] && inRequestQueues[i] == [] && outRespQueues[i] == [];
        i := i + 1;
      }
      var idle := mem.IsEmpty();
      e := e && addrToReq == map[] && missQueue == [] && dramRespQueue == [] && idle;
    }
  }
}
