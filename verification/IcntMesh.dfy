// icnt_mesh of src/new_intersim_wrapper.cc, as far as its own bookkeeping goes:
// the set of packets in flight over a network that delivers each packet at its
// node, at any time.
module IcntMesh {
  import opened Bags
  import opened Forest
  import opened IcntIdeal

  lemma AllInPop(qs: seq<seq<Packet>>, i: nat)
    requires i < |qs| && qs[i] != []
    ensures AllIn(qs) == AllIn(qs[i := qs[i][1..]]) + multiset{qs[i][0]}
  {
    hide AllIn;
    var q := qs[i];
    AllInUpdate(qs, i, q[1..]);
    assert q == [q[0]] + q[1..];
    assert multiset(q) == multiset{q[0]} + multiset(q[1..]);
    Cancel(AllIn(qs), AllIn(qs[i := q[1..]]) + multiset{q[0]}, multiset(q[1..]));
  }

  // No packet is there twice: the source owns each by one pointer.
  ghost predicate Single(m: multiset<Packet>) { forall x :: m[x] <= 1 }

  class Network {
    var inReqs: seq<seq<Packet>>
    var outReqs: seq<seq<Packet>>
    var inflight: set<Packet>
    // What the mesh holds.
    ghost var mesh: multiset<Packet>

    ghost function Held(): multiset<Packet>
      reads this
    {
      AllIn(inReqs) + mesh + AllIn(outReqs)
    }

    // The set of packets in flight is what the mesh holds.
    ghost predicate Valid()
      reads this
    {
      |inReqs| == |outReqs| && mesh == multiset(inflight) && Single(AllIn(inReqs) + mesh)
    }

    constructor (n: nat)
      ensures Valid() && |inReqs| == n && Held() == multiset{}
    {
      inReqs, outReqs, inflight, mesh := seq(n, _ => []), seq(n, _ => []), {}, multiset{};
      new;
      AllInEmpty(inReqs);
      AllInEmpty(outReqs);
    }

    // The front of queue i enters when the mesh has room for it.
    method Enter(i: nat, room: bool)
      requires Valid() && i < |inReqs|
      modifies `inReqs, `inflight, `mesh
      ensures Valid() && Held() == old(Held())
      ensures inReqs == if room && old(inReqs)[i] != [] then old(inReqs)[i := old(inReqs)[i][1..]] else old(inReqs)
      ensures old(mesh) <= mesh
    {
      if room && inReqs[i] != [] {
        hide AllIn;
        var req := inReqs[i][0];
        AllInPop(inReqs, i);
        assert (AllIn(inReqs) + mesh)[req] <= 1;
        assert req !in mesh;
        inflight := inflight + {req};
        mesh := mesh + multiset{req};
        inReqs := inReqs[i := inReqs[i][1..]];
        assert AllIn(inReqs) + mesh == old(AllIn(inReqs) + mesh);
      }
    }

    // A packet for node i comes out. The source asserts that it was in flight.
    method Leave(i: nat, req: Packet)
      requires Valid() && i < |outReqs| && req in mesh
      modifies `outReqs, `inflight, `mesh
      ensures Valid() && Held() == old(Held()) && req in old(inflight)
      ensures outReqs == old(outReqs)[i := old(outReqs)[i] + [req]]
      ensures mesh == old(mesh) - multiset{req}
    {
      hide AllIn;
      AllInPush(outReqs, i, req);
      assert req in inflight;
      inflight := inflight - {req};
      mesh := mesh - multiset{req};
      outReqs := outReqs[i := outReqs[i] + [req]];
      assert forall x :: (AllIn(inReqs) + mesh)[x] <= old(AllIn(inReqs) + mesh)[x];
    }

    // A cycle in which the mesh has room for some nodes, and hands at most one
    // of the packets it held to each node.
    method DoCycle(room: seq<bool>, got: seq<Option<Packet>>)
      requires Valid() && |room| == |got| == |inReqs|
      requires forall i :: 0 <= i < |inReqs| && inReqs[i] != [] ==> inReqs[i][0].from == i != inReqs[i][0].to
      requires forall i :: 0 <= i < |got| && got[i].Some? ==> got[i].value in mesh && got[i].value.to == i
      modifies this
      ensures Valid() && Held() == old(Held()) && |inReqs| == |old(inReqs)|
      ensures forall i :: 0 <= i < |inReqs| ==>
        inReqs[i] == if room[i] && old(inReqs)[i] != [] then old(inReqs)[i][1..] else old(inReqs)[i]
      ensures forall i :: 0 <= i < |outReqs| ==>
        outReqs[i] == old(outReqs)[i] + if got[i].Some? then [got[i].value] else []
    {
      hide AllIn, Single;
      var i := 0;
      while i < |inReqs|
        modifies `inReqs, `inflight, `mesh
        invariant Valid() && Held() == old(Held()) && i <= |inReqs| == |old(inReqs)|
        invariant forall k :: 0 <= k < i ==>
          inReqs[k] == if room[k] && old(inReqs)[k] != [] then old(inReqs)[k][1..] else old(inReqs)[k]
        invariant forall k :: i <= k < |inReqs| ==> inReqs[k] == old(inReqs)[k]
        invariant old(mesh) <= mesh
      {
        Enter(i, room[i]);
        i := i + 1;
      }
      i := 0;
      while i < |outReqs|
        modifies `outReqs, `inflight, `mesh
        invariant Valid() && Held() == old(Held()) && i <= |outReqs| == |old(outReqs)|
        invariant forall k :: 0 <= k < i ==>
          outReqs[k] == old(outReqs)[k] + if got[k].Some? then [got[k].value] else []
        invariant forall k :: i <= k < |outReqs| ==> outReqs[k] == old(outReqs)[k]
        invariant forall k :: i <= k < |got| && got[k].Some? ==> got[k].value in mesh
      {
        if got[i].Some? { Leave(i, got[i].value); }
        i := i + 1;
      }
    }

    // empty() means that no packet is anywhere.
    ghost predicate IsEmpty()
      requires Valid()
      reads this
      ensures IsEmpty() <==> Held() == multiset{}
    {
      AllInEmpty(inReqs);
      AllInEmpty(outReqs);
      && (forall i :: 0 <= i < |inReqs| ==> inReqs[i] == [])
      && (forall i :: 0 <= i < |outReqs| ==> outReqs[i] == [])
      && inflight == {} && !HasPackage()
    }

    ghost predicate HasPackage()
      requires Valid()
      reads this
      ensures HasPackage() <==> mesh != multiset{}
    {
      inflight != {}
    }
  }
}
