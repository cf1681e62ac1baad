// The queues of a unit, named by their place, and the bag of tokens they hold.
module Queues {
  import opened Bags
  import opened Forest
  import opened Tokens

  type Queues = map<Place, seq<Req>>

  function Get(q: Queues, p: Place): seq<Req> { if p in q then q[p] else [] }

  function Push(q: Queues, p: Place, r: Req): Queues { q[p := Get(q, p) + [r]] }

  function Pop(q: Queues, p: Place): Queues
    requires Get(q, p) != []
  {
    q[p := Get(q, p)[1..]]
  }

  // The entry at the front comes back with its cursor moved.
  function Unpop(q: Queues, p: Place, r: Req): Queues { q[p := [r] + Get(q, p)] }

  // First in, first out; only an entry that comes back is at the front again.
  lemma FirstInFirstOut(q: Queues, p: Place, r: Req)
    ensures Get(q, p) == [] ==> Get(Push(q, p, r), p) == [r] && Get(Pop(Push(q, p, r), p), p) == []
    ensures Get(q, p) != [] ==>
      Get(Push(q, p, r), p)[0] == Get(q, p)[0] && Pop(Push(q, p, r), p) == Push(Pop(q, p), p, r)
    ensures Get(Unpop(q, p, r), p)[0] == r && Get(Pop(Unpop(q, p, r), p), p) == Get(q, p)
    ensures forall o: Place :: o != p ==> Get(Push(q, p, r), o) == Get(Unpop(q, p, r), o) == Get(q, o)
  {
    if Get(q, p) != [] { assert (Get(q, p) + [r])[1..] == Get(q, p)[1..] + [r]; }
  }

  // Entry j leaves, wherever it is: memory answers in any order.
  function Drop(q: Queues, p: Place, j: nat): Queues
    requires j < |Get(q, p)|
  {
    q[p := Get(q, p)[..j] + Get(q, p)[j + 1..]]
  }

  function Front(q: Queues, p: Place): Option<Token> {
    if Get(q, p) == [] then None else Some(Tok(p, Get(q, p)[0]))
  }

  ghost function Toks(p: Place, s: seq<Req>): seq<Token>
  {
    seq(|s|, i requires 0 <= i < |s| => Tok(p, s[i]))
  }

  ghost function Bag(p: Place, s: seq<Req>): multiset<Token> { multiset(Toks(p, s)) }

  // All the tokens in the queues q.
  ghost function Held(q: Queues): multiset<Token>
    decreases |q|
  {
    if q == map[] then multiset{}
    else
      var p :| p in q;
      Bag(p, q[p]) + Held(q - {p})
  }

  lemma HeldUnfold(q: Queues) returns (p: Place)
    requires q != map[]
    ensures p in q && Held(q) == Bag(p, q[p]) + Held(q - {p})
  {
    hide Bag;
    p :| p in q && Held(q) == Bag(p, q[p]) + Held(q - {p});
  }

  lemma {:induction false} HeldPick(q: Queues, p: Place)
    requires p in q
    ensures Held(q) == Bag(p, q[p]) + Held(q - {p})
    decreases |q|
  {
    hide Bag, Held;
    var o := HeldUnfold(q);
    if o != p {
      HeldPick(q - {o}, p);
      HeldPick(q - {p}, o);
      var rest := q - {o} - {p};
      assert rest == q - {p} - {o};
      Swap(Bag(o, q[o]), Bag(p, q[p]), Held(rest));
    }
  }

  lemma BagConcat(p: Place, a: seq<Req>, b: seq<Req>)
    ensures Bag(p, a + b) == Bag(p, a) + Bag(p, b)
  {
    assert Toks(p, a + b) == Toks(p, a) + Toks(p, b);
  }

  lemma BagOne(p: Place, r: Req)
    ensures Bag(p, [r]) == multiset{Tok(p, r)}
  {
    assert Toks(p, [r]) == [Tok(p, r)];
  }

  lemma BagNone(p: Place)
    ensures Bag(p, []) == multiset{}
  {
  }

  lemma HeldUpdate(q: Queues, p: Place, s: seq<Req>)
    ensures Held(q[p := s]) + Bag(p, Get(q, p)) == Held(q) + Bag(p, s)
  {
    hide Held;
    HeldPick(q[p := s], p);
    assert q[p := s] - {p} == q - {p};
    if p in q {
      HeldPick(q, p);
    } else {
      assert q - {p} == q;
      assert Toks(p, []) == [];
    }
  }

  lemma DropHeld(q: Queues, p: Place, j: nat)
    requires j < |Get(q, p)|
    ensures var t := Tok(p, Get(q, p)[j]);
            t in Held(q) && Held(Drop(q, p, j)) == Held(q) - multiset{t}
  {
    hide Bag, Held;
    var s := Get(q, p);
    var rest, t := s[..j] + s[j + 1..], Tok(p, s[j]);
    assert s == (s[..j] + [s[j]]) + s[j + 1..];
    BagConcat(p, s[..j] + [s[j]], s[j + 1..]);
    BagConcat(p, s[..j], [s[j]]);
    BagConcat(p, s[..j], s[j + 1..]);
    BagOne(p, s[j]);
    assert Bag(p, s) == Bag(p, rest) + multiset{t};
    HeldUpdate(q, p, rest);
    assert Held(Drop(q, p, j)) + multiset{t} + Bag(p, rest) == Held(q) + Bag(p, rest);
    Cancel(Held(Drop(q, p, j)) + multiset{t}, Held(q), Bag(p, rest));
    assert t in Held(Drop(q, p, j)) + multiset{t};
  }

  lemma PopHeld(q: Queues, p: Place)
    requires Get(q, p) != []
    ensures var t := Tok(p, Get(q, p)[0]);
            t in Held(q) && Held(Pop(q, p)) == Held(q) - multiset{t}
  {
    DropHeld(q, p, 0);
    assert Get(q, p)[..0] + Get(q, p)[1..] == Get(q, p)[1..];
  }

  lemma PushHeld(q: Queues, p: Place, r: Req)
    ensures Held(Push(q, p, r)) == Held(q) + multiset{Tok(p, r)}
  {
    hide Bag, Held;
    var s := Get(q, p);
    BagConcat(p, s, [r]);
    BagOne(p, r);
    HeldUpdate(q, p, s + [r]);
    Cancel(Held(Push(q, p, r)), Held(q) + multiset{Tok(p, r)}, Bag(p, s));
  }

  lemma UnpopHeld(q: Queues, p: Place, r: Req)
    ensures Held(Unpop(q, p, r)) == Held(q) + multiset{Tok(p, r)}
  {
    hide Bag, Held;
    var s := Get(q, p);
    BagConcat(p, [r], s);
    BagOne(p, r);
    HeldUpdate(q, p, [r] + s);
    Cancel(Held(Unpop(q, p, r)), Held(q) + multiset{Tok(p, r)}, Bag(p, s));
  }

  lemma {:induction false} HeldOfEmpty(q: Queues)
    requires forall p :: p in q ==> q[p] == []
    ensures Held(q) == multiset{}
    decreases |q|
  {
    hide Held;
    if q != map[] {
      var p := HeldUnfold(q);
      HeldOfEmpty(q - {p});
      assert Toks(p, q[p]) == [];
    } else {
      HeldNone();
    }
  }

  lemma HeldNone()
    ensures Held(map[]) == multiset{}
  {
  }

  lemma HeldEmpty(q: Queues, p: Place)
    requires Held(q) == multiset{}
    ensures Get(q, p) == []
  {
    if Get(q, p) != [] { PopHeld(q, p); }
  }

  // What a stage does with the entry it took: each Put appends a request to a
  // queue, or puts it back at the front.
  datatype Put = Back(p: Place, r: Req) | Again(p: Place, r: Req)

  // x, and r again at the front of p unless the list is exhausted.
  function Issue(x: Put, done: bool, p: Place, r: Req): seq<Put> {
    if done then [x] else [x, Again(p, r)]
  }

  function PutOne(q: Queues, x: Put): Queues {
    if x.Back? then Push(q, x.p, x.r) else Unpop(q, x.p, x.r)
  }

  // No stage puts more than three requests.
  function PutAll(q: Queues, puts: seq<Put>): Queues
  {
    var q1 := if |puts| > 0 then PutOne(q, puts[0]) else q;
    var q2 := if |puts| > 1 then PutOne(q1, puts[1]) else q1;
    if |puts| > 2 then PutOne(q2, puts[2]) else q2
  }

  ghost function PutToks(puts: seq<Put>): seq<Token>
  {
    seq(|puts|, i requires 0 <= i < |puts| => Tok(puts[i].p, puts[i].r))
  }

  lemma PutOneHeld(q: Queues, x: Put)
    ensures Held(PutOne(q, x)) == Held(q) + multiset{Tok(x.p, x.r)}
  {
    PushHeld(q, x.p, x.r);
    UnpopHeld(q, x.p, x.r);
  }

  lemma PutAllHeld(q: Queues, puts: seq<Put>)
    requires |puts| <= 3
    ensures Held(PutAll(q, puts)) == Held(q) + multiset(PutToks(puts))
  {
    hide Held, PutOne;
    var q1 := if |puts| > 0 then PutOne(q, puts[0]) else q;
    var q2 := if |puts| > 1 then PutOne(q1, puts[1]) else q1;
    if |puts| > 0 { PutOneHeld(q, puts[0]); }
    if |puts| > 1 { PutOneHeld(q1, puts[1]); }
    if |puts| > 2 { PutOneHeld(q2, puts[2]); }
    FewToks(puts);
  }

  lemma FewToks(puts: seq<Put>)
    requires |puts| <= 3
    ensures var t := multiset(PutToks(puts));
            && (|puts| == 0 ==> t == multiset{})
            && (|puts| == 1 ==> t == multiset{Tok(puts[0].p, puts[0].r)})
            && (|puts| == 2 ==> t == multiset{Tok(puts[0].p, puts[0].r)} + multiset{Tok(puts[1].p, puts[1].r)})
            && (|puts| == 3 ==> t == multiset{Tok(puts[0].p, puts[0].r)} + multiset{Tok(puts[1].p, puts[1].r)}
                                     + multiset{Tok(puts[2].p, puts[2].r)})
  {
    hide Tok;
    var ts := PutToks(puts);
    if |puts| == 0 {
      assert ts == [];
    } else if |puts| == 1 {
      assert ts == [ts[0]];
    } else if |puts| == 2 {
      assert ts == [ts[0]] + [ts[1]];
    } else {
      assert ts == [ts[0]] + [ts[1]] + [ts[2]];
    }
  }

  lemma Cursor(s: seq<Req>, x: Req)
    requires s != []
    ensures s[0 := x] == [x] + s[1..] && s[0 := x][1..] == s[1..]
  {
  }

  // b' is b with token t replaced by the tokens made.
  ghost predicate Fires(b: multiset<Token>, t: Token, made: seq<Token>, b': multiset<Token>)
  {
    t in b && b' == b - multiset{t} + multiset(made)
  }

  // Taking the front of p and putting `puts` fires the token at the front.
  lemma TakeFires(q: Queues, p: Place, puts: seq<Put>)
    requires Get(q, p) != [] && |puts| <= 3
    ensures Fires(Held(q), Tok(p, Get(q, p)[0]), PutToks(puts), Held(PutAll(Pop(q, p), puts)))
  {
    hide Held, PutAll, PutToks;
    PopHeld(q, p);
    PutAllHeld(Pop(q, p), puts);
  }

  // A queue that nothing is put into stands aside.
  lemma PushAside(q: Queues, p: Place, r: Req, p': Place, other: seq<Req>)
    requires p != p'
    ensures Push(q, p, r)[p' := other] == Push(q[p' := other], p, r)
  {
  }

  lemma PopAside(q: Queues, p: Place, p': Place, other: seq<Req>)
    requires p != p' && Get(q, p) != []
    ensures Pop(q, p)[p' := other] == Pop(q[p' := other], p)
  {
  }

  lemma PutOneAside(q: Queues, x: Put, p': Place, other: seq<Req>)
    requires x.p != p'
    ensures PutOne(q, x)[p' := other] == PutOne(q[p' := other], x)
  {
  }

  predicate Avoids(puts: seq<Put>, p: Place) { |puts| <= 3 && forall i :: 0 <= i < |puts| ==> puts[i].p != p }

  lemma PutAllAside(q: Queues, puts: seq<Put>, p': Place, other: seq<Req>)
    requires Avoids(puts, p')
    ensures PutAll(q, puts)[p' := other] == PutAll(q[p' := other], puts)
  {
    hide PutOne;
    if |puts| > 0 {
      PutOneAside(q, puts[0], p', other);
      var q1 := PutOne(q, puts[0]);
      if |puts| > 1 {
        PutOneAside(q1, puts[1], p', other);
        var q2 := PutOne(q1, puts[1]);
        if |puts| > 2 { PutOneAside(q2, puts[2], p', other); }
      }
    }
  }
}
