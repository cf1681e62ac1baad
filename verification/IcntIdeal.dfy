// icnt_ideal of src/new_intersim_wrapper.cc: a network that delivers everything
// in one cycle.
module IcntIdeal {
  import opened Bags

  datatype Packet = Packet(id: int, from: nat, to: nat)

  const BUFFER: nat := 16

  // The packets of q that go to node d, in order.
  function Bound(q: seq<Packet>, d: nat): seq<Packet>
  {
    if q == [] then []
    else Bound(q[..|q| - 1], d) + if q[|q| - 1].to == d then [q[|q| - 1]] else []
  }

  // What the input queues hold for node d, queue by queue.
  function Arriving(ins: seq<seq<Packet>>, d: nat): seq<Packet>
  {
    if ins == [] then [] else Arriving(ins[..|ins| - 1], d) + Bound(ins[|ins| - 1], d)
  }

  predicate Addressed(ins: seq<seq<Packet>>, n: nat) {
    forall i, k :: 0 <= i < |ins| && 0 <= k < |ins[i]| ==> ins[i][k].to < n
  }

  // All packets of some queues.
  ghost function AllIn(qs: seq<seq<Packet>>): multiset<Packet> {
    Join(seq(|qs|, i requires 0 <= i < |qs| => multiset(qs[i])))
  }

  ghost function Heading(q: seq<Packet>, n: nat): multiset<Packet>
    decreases n
  {
    if n == 0 then multiset{} else Heading(q, n - 1) + multiset(Bound(q, n - 1))
  }

  ghost function HeadingAll(ins: seq<seq<Packet>>, n: nat): multiset<Packet>
    decreases n
  {
    if n == 0 then multiset{} else HeadingAll(ins, n - 1) + multiset(Arriving(ins, n - 1))
  }

  lemma BoundNone(d: nat)
    ensures Bound([], d) == [] && Arriving([], d) == []
  {
  }

  lemma BoundAdd(q: seq<Packet>, x: Packet, d: nat)
    ensures Bound(q + [x], d) == Bound(q, d) + if x.to == d then [x] else []
  {
    assert (q + [x])[..|q|] == q;
  }

  // A node gets the packets of a queue that are addressed to it, each as often as
  // it was there,
  lemma {:induction false} BoundIsAddressed(q: seq<Packet>, d: nat, x: Packet)
    ensures multiset(Bound(q, d))[x] == if x.to == d then multiset(q)[x] else 0
    decreases |q|
  {
    if q != [] {
      var rest, last := q[..|q| - 1], q[|q| - 1];
      BoundIsAddressed(rest, d, x);
      assert q == rest + [last];
      assert multiset(q) == multiset(rest) + multiset{last};
    }
  }

  // and in the order of the queue, for which their ids stand here.
  lemma {:induction false} BoundKeepsOrder(q: seq<Packet>, d: nat)
    requires forall i, j :: 0 <= i < j < |q| ==> q[i].id < q[j].id
    ensures forall i, j :: 0 <= i < j < |Bound(q, d)| ==> Bound(q, d)[i].id < Bound(q, d)[j].id
    decreases |q|
  {
    if q != [] {
      var rest, last := q[..|q| - 1], q[|q| - 1];
      var b := Bound(rest, d);
      BoundKeepsOrder(rest, d);
      forall i | 0 <= i < |b| ensures b[i].id < last.id {
        var k := BoundFrom(rest, d, i);
        assert rest[k] == q[k];
      }
      BoundUnfold(q, d);
      hide Bound;
    }
  }

  lemma BoundUnfold(q: seq<Packet>, d: nat)
    requires q != []
    ensures Bound(q, d) == Bound(q[..|q| - 1], d) + if q[|q| - 1].to == d then [q[|q| - 1]] else []
  {
  }

  lemma {:induction false} BoundFrom(q: seq<Packet>, d: nat, i: nat) returns (k: nat)
    requires i < |Bound(q, d)|
    ensures k < |q| && q[k] == Bound(q, d)[i]
    decreases |q|
  {
    var n := |q| - 1;
    if i < |Bound(q[..n], d)| {
      k := BoundFrom(q[..n], d, i);
    } else {
      k := n;
    }
  }

  lemma {:induction false} HeadingAdd(q: seq<Packet>, x: Packet, n: nat)
    ensures Heading(q + [x], n) == Heading(q, n) + if x.to < n then multiset{x} else multiset{}
    decreases n
  {
    hide Bound;
    if n > 0 {
      HeadingAdd(q, x, n - 1);
      BoundAdd(q, x, n - 1);
    }
  }

  // Every packet goes to one node.
  lemma {:induction false} HeadingIs(q: seq<Packet>, n: nat)
    requires forall k :: 0 <= k < |q| ==> q[k].to < n
    ensures Heading(q, n) == multiset(q)
    decreases |q|
  {
    if q == [] {
      HeadingNone(n);
    } else {
      var rest, x := q[..|q| - 1], q[|q| - 1];
      HeadingIs(rest, n);
      HeadingAdd(rest, x, n);
      assert q == rest + [x];
    }
  }

  lemma {:induction false} HeadingNone(n: nat)
    ensures Heading([], n) == multiset{} && HeadingAll([], n) == multiset{}
    decreases n
  {
    if n > 0 {
      HeadingNone(n - 1);
      BoundNone(n - 1);
    }
  }

  lemma {:induction false} HeadingAllAdd(ins: seq<seq<Packet>>, q: seq<Packet>, n: nat)
    ensures HeadingAll(ins + [q], n) == HeadingAll(ins, n) + Heading(q, n)
    decreases n
  {
    hide Arriving, Bound;
    if n > 0 {
      HeadingAllAdd(ins, q, n - 1);
      ArrivingAdd(ins, q, n - 1);
    }
  }

  lemma ArrivingAdd(ins: seq<seq<Packet>>, q: seq<Packet>, d: nat)
    ensures multiset(Arriving(ins + [q], d)) == multiset(Arriving(ins, d)) + multiset(Bound(q, d))
  {
    hide Bound;
    assert (ins + [q])[..|ins|] == ins;
  }

  lemma {:induction false} HeadingAllIs(ins: seq<seq<Packet>>, n: nat)
    requires Addressed(ins, n)
    ensures HeadingAll(ins, n) == AllIn(ins)
    decreases |ins|
  {
    hide HeadingAll, Heading, AllIn;
    if ins == [] {
      HeadingNone(n);
      AllInEmpty(ins);
    } else {
      var rest, q := ins[..|ins| - 1], ins[|ins| - 1];
      assert Addressed(rest, n);
      HeadingAllIs(rest, n);
      HeadingIs(q, n);
      HeadingAllAdd(rest, q, n);
      assert ins == rest + [q];
      AllInAdd(rest, q);
    }
  }

  lemma AllInEmpty(qs: seq<seq<Packet>>)
    ensures AllIn(qs) == multiset{} <==> forall i :: 0 <= i < |qs| ==> qs[i] == []
  {
    var ms := seq(|qs|, i requires 0 <= i < |qs| => multiset(qs[i]));
    JoinEmpty(ms);
    forall i | 0 <= i < |qs| ensures ms[i] == multiset{} <==> qs[i] == [] {
      if qs[i] != [] { assert qs[i][0] in ms[i]; }
    }
  }

  lemma AllInAdd(qs: seq<seq<Packet>>, q: seq<Packet>)
    ensures AllIn(qs + [q]) == AllIn(qs) + multiset(q)
  {
    var ms := seq(|qs|, i requires 0 <= i < |qs| => multiset(qs[i]));
    JoinAdd(ms, multiset(q));
    assert seq(|qs| + 1, i requires 0 <= i < |qs| + 1 => multiset((qs + [q])[i])) == ms + [multiset(q)];
  }

  // Putting a queue in the place of queue i.
  lemma AllInUpdate(qs: seq<seq<Packet>>, i: nat, q: seq<Packet>)
    requires i < |qs|
    ensures AllIn(qs[i := q]) + multiset(qs[i]) == AllIn(qs) + multiset(q)
    ensures multiset(qs[i]) <= AllIn(qs)
  {
    var ms := seq(|qs|, k requires 0 <= k < |qs| => multiset(qs[k]));
    JoinUpdate(ms, i, multiset(q));
    assert seq(|qs|, k requires 0 <= k < |qs| => multiset(qs[i := q][k])) == ms[i := multiset(q)];
  }

  lemma AllInPush(qs: seq<seq<Packet>>, i: nat, x: Packet)
    requires i < |qs|
    ensures AllIn(qs[i := qs[i] + [x]]) == AllIn(qs) + multiset{x}
  {
    hide AllIn;
    AllInUpdate(qs, i, qs[i] + [x]);
    assert multiset(qs[i] + [x]) == multiset(qs[i]) + multiset{x};
    Cancel(AllIn(qs[i := qs[i] + [x]]), AllIn(qs) + multiset{x}, multiset(qs[i]));
  }

  lemma {:induction false} JoinAdd<T>(ms: seq<multiset<T>>, m: multiset<T>)
    ensures Join(ms + [m]) == Join(ms) + m
  {
    if ms == [] {
      assert Join([m]) == m + Join([]) by { assert [m][1..] == []; }
      assert [] + [m] == [m];
    } else {
      JoinAdd(ms[1..], m);
      assert (ms + [m])[1..] == ms[1..] + [m];
    }
  }

  // The cycle of the network, node by node.
  ghost predicate Delivered(ins: seq<seq<Packet>>, outs: seq<seq<Packet>>,
                            ins': seq<seq<Packet>>, outs': seq<seq<Packet>>)
  {
    && |ins'| == |ins| && |outs'| == |outs|
    && (forall i :: 0 <= i < |ins'| ==> ins'[i] == [])
    && (forall d :: 0 <= d < |outs| ==> outs'[d] == outs[d] + Arriving(ins, d))
  }

  // Nothing is lost or doubled by a cycle.
  lemma DeliveryConserves(ins: seq<seq<Packet>>, outs: seq<seq<Packet>>,
                          ins': seq<seq<Packet>>, outs': seq<seq<Packet>>)
    requires Delivered(ins, outs, ins', outs') && Addressed(ins, |outs|)
    ensures AllIn(ins') == multiset{}
    ensures AllIn(outs') == AllIn(outs) + AllIn(ins)
  {
    AllInEmpty(ins');
    HeadingAllIs(ins, |outs|);
    OutsAdd(ins, outs, outs', |outs|);
    assert outs'[..|outs|] == outs' && outs[..|outs|] == outs;
  }

  lemma {:induction false} OutsAdd(ins: seq<seq<Packet>>, outs: seq<seq<Packet>>, outs': seq<seq<Packet>>, n: nat)
    requires |outs'| == |outs| && n <= |outs|
    requires forall d :: 0 <= d < |outs| ==> outs'[d] == outs[d] + Arriving(ins, d)
    ensures AllIn(outs'[..n]) == AllIn(outs[..n]) + HeadingAll(ins, n)
    decreases n
  {
    hide Arriving, AllIn;
    if n == 0 {
      assert outs'[..0] == outs[..0];
    } else {
      OutsAdd(ins, outs, outs', n - 1);
      AllInAdd(outs'[..n - 1], outs'[n - 1]);
      AllInAdd(outs[..n - 1], outs[n - 1]);
      assert outs'[..n] == outs'[..n - 1] + [outs'[n - 1]];
      assert outs[..n] == outs[..n - 1] + [outs[n - 1]];
      assert multiset(outs'[n - 1]) == multiset(outs[n - 1]) + multiset(Arriving(ins, n - 1));
    }
  }

  class Network {
    var inReqs: seq<seq<Packet>>
    var outReqs: seq<seq<Packet>>

    constructor (n: nat)
      ensures |inReqs| == |outReqs| == n && IsEmpty()
    {
      inReqs, outReqs := seq(n, _ => []), seq(n, _ => []);
    }

    method DoCycle()
      requires Addressed(inReqs, |outReqs|)
      modifies this
      ensures Delivered(old(inReqs), old(outReqs), inReqs, outReqs)
      ensures AllIn(outReqs) == AllIn(old(outReqs)) + AllIn(old(inReqs))
    {
      ghost var ins, outs := inReqs, outReqs;
      var i := 0;
      assert forall d :: 0 <= d < |outs| ==> Arriving(ins[..0], d) == [];
      while i < |inReqs|
        invariant i <= |inReqs| == |ins| && |outReqs| == |outs|
        invariant forall k :: 0 <= k < i ==> inReqs[k] == []
        invariant forall k :: i <= k < |ins| ==> inReqs[k] == ins[k]
        invariant forall d :: 0 <= d < |outs| ==> outReqs[d] == outs[d] + Arriving(ins[..i], d)
      {
        Empty(i);
        assert ins[..i + 1][..i] == ins[..i];
        i := i + 1;
      }
      assert ins[..|ins|] == ins;
      DeliveryConserves(ins, outs, inReqs, outReqs);
    }

    // The packets of queue i leave, one by one.
    method Empty(i: nat)
      requires i < |inReqs| && forall k :: 0 <= k < |inReqs[i]| ==> inReqs[i][k].to < |outReqs|
      modifies this
      ensures inReqs == old(inReqs)[i := []] && |outReqs| == |old(outReqs)|
      ensures forall d :: 0 <= d < |outReqs| ==> outReqs[d] == old(outReqs)[d] + Bound(old(inReqs)[i], d)
    {
      ghost var q, outs := inReqs[i], outReqs;
      ghost var done: nat := 0;
      assert forall d :: 0 <= d < |outs| ==> Bound(q[..0], d) == [];
      while inReqs[i] != []
        invariant done <= |q| && inReqs == old(inReqs)[i := q[done..]] && |outReqs| == |outs|
        invariant forall d :: 0 <= d < |outs| ==> outReqs[d] == outs[d] + Bound(q[..done], d)
        decreases |q| - done
      {
        var req := inReqs[i][0];
        outReqs := outReqs[req.to := outReqs[req.to] + [req]];
        inReqs := inReqs[i := inReqs[i][1..]];
        assert q[..done + 1] == q[..done] + [req];
        forall d: nat { BoundAdd(q[..done], req, d); }
        done := done + 1;
      }
      assert q[..|q|] == q;
    }

    predicate HasBuffer(source: nat)
      requires source < |inReqs|
      reads this
    {
      |inReqs[source]| < BUFFER
    }

    // A sender that asks first: its queue never holds more than the buffer, and
    // it is refused only when the buffer is full.
    method Inject(source: nat, req: Packet) returns (ok: bool)
      requires source < |inReqs| && |inReqs[source]| <= 16
      modifies `inReqs
      ensures |inReqs| == |old(inReqs)| && |inReqs[source]| <= 16
      ensures AllIn(inReqs) == AllIn(old(inReqs)) + if ok then multiset{req} else multiset{}
      ensures ok ==> inReqs == old(inReqs)[source := old(inReqs)[source] + [req]]
      ensures !ok ==> inReqs == old(inReqs) && |inReqs[source]| == 16
    {
      ok := HasBuffer(source);
      if ok {
        AllInPush(inReqs, source, req);
        inReqs := inReqs[source := inReqs[source] + [req]];
      }
    }

    ghost predicate IsEmpty()
      reads this
    {
      && (forall i :: 0 <= i < |inReqs| ==> inReqs[i] == [])
      && (forall i :: 0 <= i < |outReqs| ==> outReqs[i] == [])
    }

    // As written, has_pkg_in_icnt holds exactly when the network has none.
    ghost predicate HasPackage()
      reads this
      ensures HasPackage() <==> AllIn(inReqs) == AllIn(outReqs) == multiset{}
    {
      AllInEmpty(inReqs);
      AllInEmpty(outReqs);
      IsEmpty()
    }
  }
}
