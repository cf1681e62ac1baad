// src/clause_writer.cc: a finished clause goes back to the cache as one write,
// or as two when it is longer than a chunk.
module ClauseWriter {
  import opened Forest
  import opened Queues
  import opened Tokens

  function Fresh(): Queues { map[KIn := [], KOut := []] }

  function Puts(r: Req): seq<Put>
  {
    var w := r.(kind := WriteClause);
    if Literals(r.a, r.w) <= CHUNK then [Back(KOut, w)] else [Back(KOut, w), Back(KOut, w)]
  }

  function Step(q: Queues): Queues {
    if Get(q, KIn) == [] then q else PutAll(Pop(q, KIn), Puts(Get(q, KIn)[0]))
  }

  lemma StepFires(q: Queues)
    requires Get(q, KIn) != []
    ensures var t := Tok(KIn, Get(q, KIn)[0]); Fires(Held(q), t, Succ(t), Held(Step(q)))
  {
    hide Held, PutAll;
    var r := Get(q, KIn)[0];
    assert PutToks(Puts(r)) == Succ(Tok(KIn, r));
    TakeFires(q, KIn, Puts(r));
  }

  class Unit {
    var inQ: seq<Req>
    var outQ: seq<Req>
    var writeOne: nat
    var writeTwo: nat

    constructor ()
      ensures View() == Fresh() && writeOne == writeTwo == 0
    {
      inQ, outQ, writeOne, writeTwo := [], [], 0, 0;
    }

    ghost function View(): Queues
      reads this
    {
      map[KIn := inQ, KOut := outQ]
    }

    method PushIn(req: Req)
      modifies `inQ
      ensures View() == Push(old(View()), KIn, req)
    {
      inQ := inQ + [req];
    }

    method PopOut() returns (req: Req)
      requires outQ != []
      modifies `outQ
      ensures req == old(outQ[0]) && View() == Pop(old(View()), KOut)
    {
      req := outQ[0];
      outQ := outQ[1..];
    }

    // The asserts of the source: the watcher exists and the request is at the
    // last literal of its clause. Every request a run hands over meets them as
    // long as no clause is empty (Asserts.AssertsHold).
    method DoCycle() returns (busy: bool)
      requires inQ != [] ==> inQ[0].w < Size(inQ[0].a) && inQ[0].c + 1 == Literals(inQ[0].a, inQ[0].w)
      modifies this
      ensures View() == Step(old(View()))
      ensures busy == (old(inQ) != [])
      ensures writeOne + 2 * writeTwo + |old(outQ)| == old(writeOne) + 2 * old(writeTwo) + |outQ|
    {
      busy := inQ != [];
      if busy {
        var req := inQ[0].(kind := WriteClause);
        if Literals(req.a, req.w) <= CHUNK {
          outQ := outQ + [req];
          writeOne := writeOne + 1;
        } else {
          outQ := outQ + [req];
          outQ := outQ + [req];
          writeTwo := writeTwo + 1;
        }
        inQ := inQ[1..];
      }
      assert View() == Step(old(View()));
    }
  }
}
