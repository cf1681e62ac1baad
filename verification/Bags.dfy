// Sums over multisets and over sequences of multisets.
module Bags {

  lemma Swap<T>(a: multiset<T>, b: multiset<T>, c: multiset<T>)
    ensures a + (b + c) == b + (a + c)
  {
  }

  lemma Cancel<T(!new)>(a: multiset<T>, b: multiset<T>, c: multiset<T>)
    requires a + c == b + c
    ensures a == b
  {
    forall x ensures a[x] == b[x] {
      assert (a + c)[x] == (b + c)[x];
    }
  }

  lemma Member<T>(s: set<T>) returns (x: T)
    requires s != {}
    ensures x in s
  {
    x :| x in s;
  }

  // The sum of f over the members of m, counted with multiplicity.
  ghost function Total<T(!new)>(f: T -> nat, m: multiset<T>): nat
    decreases |m|
  {
    if m == multiset{} then 0
    else
      var t :| t in m;
      f(t) + Total(f, m - multiset{t})
  }

  lemma TotalUnfold<T(!new)>(f: T -> nat, m: multiset<T>) returns (t: T)
    requires m != multiset{}
    ensures t in m && Total(f, m) == f(t) + Total(f, m - multiset{t})
  {
    t :| t in m && Total(f, m) == f(t) + Total(f, m - multiset{t});
  }

  lemma {:induction false} TotalPick<T(!new)>(f: T -> nat, m: multiset<T>, t: T)
    requires t in m
    ensures Total(f, m) == f(t) + Total(f, m - multiset{t})
    decreases |m|
  {
    hide Total;
    var u := TotalUnfold(f, m);
    if u != t {
      TotalPick(f, m - multiset{u}, t);
      TotalPick(f, m - multiset{t}, u);
      assert m - multiset{u} - multiset{t} == m - multiset{t} - multiset{u};
    }
  }

  lemma TotalNone<T(!new)>(f: T -> nat)
    ensures Total(f, multiset{}) == 0
  {
  }

  lemma TotalAdd<T(!new)>(f: T -> nat, m: multiset<T>, t: T)
    ensures Total(f, m + multiset{t}) == Total(f, m) + f(t)
  {
    TotalPick(f, m + multiset{t}, t);
    assert m + multiset{t} - multiset{t} == m;
  }

  lemma {:induction false} TotalUnion<T(!new)>(f: T -> nat, a: multiset<T>, b: multiset<T>)
    ensures Total(f, a + b) == Total(f, a) + Total(f, b)
    decreases |b|
  {
    if b == multiset{} {
      assert a + b == a;
    } else {
      var t :| t in b;
      var rest := b - multiset{t};
      TotalUnion(f, a, rest);
      TotalPick(f, b, t);
      TotalAdd(f, a + rest, t);
      assert a + b == (a + rest) + multiset{t};
    }
  }

  // A total depends only on the members that weigh something.
  lemma {:induction false} TotalSupport<T(!new)>(f: T -> nat, a: multiset<T>, b: multiset<T>)
    requires forall x :: f(x) > 0 ==> a[x] == b[x]
    ensures Total(f, a) == Total(f, b)
    decreases |a| + |b|
  {
    hide Total;
    if a == multiset{} && b == multiset{} {
    } else if a == multiset{} {
      var x :| x in b;
      TotalPick(f, b, x);
      TotalSupport(f, a, b - multiset{x});
    } else {
      var x :| x in a;
      TotalPick(f, a, x);
      if f(x) > 0 {
        TotalPick(f, b, x);
        TotalSupport(f, a - multiset{x}, b - multiset{x});
      } else {
        TotalSupport(f, a - multiset{x}, b);
      }
    }
  }

  // Weighing one member counts it.
  function Only<T(==)>(x: T): T -> nat { (t: T) => if t == x then 1 else 0 }

  lemma {:induction false} TotalOnly<T(!new)>(x: T, m: multiset<T>)
    ensures Total(Only(x), m) == m[x]
    decreases |m|
  {
    hide Total;
    if m == multiset{} {
      TotalNone(Only(x));
    } else {
      var t :| t in m;
      TotalPick(Only(x), m, t);
      TotalOnly(x, m - multiset{t});
    }
  }

  // f over a short list, as the list reads.
  lemma TotalOne<T(!new)>(f: T -> nat, x: T)
    ensures Total(f, multiset([x])) == f(x)
  {
    TotalAdd(f, multiset{}, x);
    assert multiset([x]) == multiset{} + multiset{x};
  }

  lemma TotalTwo<T(!new)>(f: T -> nat, x: T, y: T)
    ensures Total(f, multiset([x, y])) == f(x) + f(y)
  {
    TotalOne(f, x);
    TotalAdd(f, multiset([x]), y);
    assert multiset([x, y]) == multiset([x]) + multiset{y};
  }

  lemma TotalThree<T(!new)>(f: T -> nat, x: T, y: T, z: T)
    ensures Total(f, multiset([x, y, z])) == f(x) + f(y) + f(z)
  {
    TotalTwo(f, x, y);
    TotalAdd(f, multiset([x, y]), z);
    assert multiset([x, y, z]) == multiset([x, y]) + multiset{z};
  }

  // The union of f over the members of m.
  ghost function Gather<T(!new), U(!new)>(f: T -> multiset<U>, m: multiset<T>): multiset<U>
    decreases |m|
  {
    if m == multiset{} then multiset{}
    else
      var t :| t in m;
      f(t) + Gather(f, m - multiset{t})
  }

  lemma GatherUnfold<T(!new), U(!new)>(f: T -> multiset<U>, m: multiset<T>) returns (t: T)
    requires m != multiset{}
    ensures t in m && Gather(f, m) == f(t) + Gather(f, m - multiset{t})
  {
    t :| t in m && Gather(f, m) == f(t) + Gather(f, m - multiset{t});
  }

  lemma {:induction false} GatherPick<T(!new), U(!new)>(f: T -> multiset<U>, m: multiset<T>, t: T)
    requires t in m
    ensures Gather(f, m) == f(t) + Gather(f, m - multiset{t})
    decreases |m|
  {
    hide Gather;
    var u := GatherUnfold(f, m);
    if u != t {
      GatherPick(f, m - multiset{u}, t);
      GatherPick(f, m - multiset{t}, u);
      var rest := m - multiset{u} - multiset{t};
      assert rest == m - multiset{t} - multiset{u};
      Swap(f(u), f(t), Gather(f, rest));
    }
  }

  lemma GatherAdd<T(!new), U(!new)>(f: T -> multiset<U>, m: multiset<T>, t: T)
    ensures Gather(f, m + multiset{t}) == Gather(f, m) + f(t)
  {
    GatherPick(f, m + multiset{t}, t);
    assert m + multiset{t} - multiset{t} == m;
  }

  lemma GatherNone<T(!new), U(!new)>(f: T -> multiset<U>)
    ensures Gather(f, multiset{}) == multiset{}
  {
  }

  lemma {:induction false} GatherUnion<T(!new), U(!new)>(f: T -> multiset<U>, a: multiset<T>, b: multiset<T>)
    ensures Gather(f, a + b) == Gather(f, a) + Gather(f, b)
    decreases |b|
  {
    hide Gather;
    if b == multiset{} {
      GatherNone(f);
      assert a + b == a;
    } else {
      var t :| t in b;
      var rest := b - multiset{t};
      GatherUnion(f, a, rest);
      GatherPick(f, b, t);
      GatherAdd(f, a + rest, t);
      assert a + b == (a + rest) + multiset{t};
      Swap(Gather(f, a), f(t), Gather(f, rest));
    }
  }

  // f over a short list, as the list reads.
  lemma GatherOne<T(!new), U(!new)>(f: T -> multiset<U>, x: T)
    ensures Gather(f, multiset([x])) == f(x)
  {
    GatherAdd(f, multiset{}, x);
    assert multiset([x]) == multiset{} + multiset{x};
  }

  lemma GatherTwo<T(!new), U(!new)>(f: T -> multiset<U>, x: T, y: T)
    ensures Gather(f, multiset([x, y])) == f(x) + f(y)
  {
    GatherOne(f, x);
    GatherAdd(f, multiset([x]), y);
    assert multiset([x, y]) == multiset([x]) + multiset{y};
  }

  lemma GatherThree<T(!new), U(!new)>(f: T -> multiset<U>, x: T, y: T, z: T)
    ensures Gather(f, multiset([x, y, z])) == f(x) + f(y) + f(z)
  {
    GatherTwo(f, x, y);
    GatherAdd(f, multiset([x, y]), z);
    assert multiset([x, y, z]) == multiset([x, y]) + multiset{z};
  }

  // The union of a sequence of bags, one per unit of an array of units.
  ghost function Join<T>(ms: seq<multiset<T>>): multiset<T>
  {
    if ms == [] then multiset{} else ms[0] + Join(ms[1..])
  }

  lemma {:induction false} JoinUpdate<T>(ms: seq<multiset<T>>, i: nat, m: multiset<T>)
    requires i < |ms|
    ensures Join(ms[i := m]) + ms[i] == Join(ms) + m
    ensures ms[i] <= Join(ms)
  {
    if i == 0 {
      assert ms[i := m][1..] == ms[1..];
    } else {
      JoinUpdate(ms[1..], i - 1, m);
      assert ms[i := m][1..] == ms[1..][i - 1 := m];
      calc {
        Join(ms[i := m]) + ms[i];
        (ms[0] + Join(ms[1..][i - 1 := m])) + ms[i];
        ms[0] + (Join(ms[1..][i - 1 := m]) + ms[1..][i - 1]);
        ms[0] + (Join(ms[1..]) + m);
        Join(ms) + m;
      }
    }
  }

  lemma {:induction false} JoinEmpty<T>(ms: seq<multiset<T>>)
    ensures Join(ms) == multiset{} <==> forall i :: 0 <= i < |ms| ==> ms[i] == multiset{}
  {
    if ms != [] {
      JoinEmpty(ms[1..]);
      assert forall i :: 0 <= i < |ms| - 1 ==> ms[1..][i] == ms[i + 1];
      if Join(ms) == multiset{} {
        assert ms[0] <= Join(ms);
        assert Join(ms[1..]) <= Join(ms);
        forall i | 0 <= i < |ms| ensures ms[i] == multiset{} {
          if i > 0 { assert ms[i] == ms[1..][i - 1]; }
        }
      }
    }
  }
}
