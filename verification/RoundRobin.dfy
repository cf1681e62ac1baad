// The round robin of the dispatch (src/acc.cc:645-649): over any run, the clause
// units behind a watcher take turns.
module RoundRobin {
  import opened Arithmetic
  import opened Routing

  // The dispatches of a run, in order: at which watcher a task came out, and the
  // unit that got it.
  datatype Dealt = Dealt(i: nat, c: nat)

  ghost function DealtIn(m: Machine, acts: seq<Action>): seq<Dealt>
    requires Fits(m)
    decreases |acts|
  {
    if acts == [] then []
    else
      var before, a := acts[..|acts| - 1], acts[|acts| - 1];
      DealtIn(m, before)
      + if a.Dispatch? && a.i < m.nW
        then [Dealt(a.i, DispatchIndex(a.i, NextClause(m, Run(m, before).next)))] else []
  }

  // How far behind its watcher the unit of a dispatch is.
  function Offset(d: Dealt): int { d.c - d.i }

  // Dispatch j of a run, whichever watchers the others were at, goes 1 + j places
  // round the circle of the offsets.
  lemma {:induction false} InTurn(m: Machine, acts: seq<Action>)
    requires Fits(m)
    ensures var ds := DealtIn(m, acts);
            && (forall j :: 0 <= j < |ds| ==> ds[j].i < m.nW && Offset(ds[j]) == (1 + j) % Ratio(m))
            && Run(m, acts).next == |ds| % Ratio(m)
    decreases |acts|
  {
    hide Ratio, MayIssue, Hop, Issued;
    if acts == [] {
      QuotientIs(0, Ratio(m), 0, 0);
    } else {
      var before, a := acts[..|acts| - 1], acts[|acts| - 1];
      InTurn(m, before);
      if a.Dispatch? && a.i < m.nW {
        ModOfSum(|DealtIn(m, before)|, 1, Ratio(m));
      }
    }
  }

  // A sequence that goes round the circle of r numbers, from a on.
  ghost predicate Circles(s: seq<int>, a: nat, r: nat)
    requires r > 0
  {
    forall j :: 0 <= j < |s| ==> s[j] == (a + j) % r
  }

  lemma Meets(a: nat, r: nat, o: nat) returns (j: nat)
    requires o < r
    ensures j < r && (a + j) % r == o
  {
    var x := a % r;
    j := if x <= o then o - x else o + r - x;
    ModOfSum(a, j, r);
    if x <= o { QuotientIs(x + j, r, 0, o); } else { QuotientIs(x + j, r, 1, o); }
  }

  lemma MeetsOnce(a: nat, r: nat, j: nat, k: nat)
    requires j < k < j + r
    ensures (a + j) % r != (a + k) % r
  {
    DivParts(a + j, r);
    DivParts(a + k, r);
    var q, q' := (a + j) / r, (a + k) / r;
    if (a + j) % r == (a + k) % r {
      if q' <= q {
        MulMono(q', q, r);
      } else {
        MulMono(q + 1, q', r);
        NextMultiple(q, r);
      }
    }
  }

  // One round meets each number once.
  lemma OneRound(s: seq<int>, a: nat, r: nat, o: nat)
    requires o < r && |s| == r && Circles(s, a, r)
    ensures multiset(s)[o] == 1
  {
    var j := Meets(a, r, o);
    forall k | 0 <= k < |s| && k != j ensures s[k] != o {
      if j < k { MeetsOnce(a, r, j, k); } else { MeetsOnce(a, r, k, j); }
    }
    assert s == s[..j] + [s[j]] + s[j + 1..];
    assert o !in s[..j] && o !in s[j + 1..];
    assert multiset(s) == multiset(s[..j]) + multiset{s[j]} + multiset(s[j + 1..]);
  }

  // n rounds meet each number n times.
  lemma {:induction false} Rounds(s: seq<int>, a: nat, r: nat, n: nat, o: nat)
    requires o < r && |s| == n * r && Circles(s, a, r)
    ensures multiset(s)[o] == n
    decreases n
  {
    hide Circles;
    if n == 0 {
      assert s == [];
    } else {
      NextMultiple(n - 1, r);
      var m := |s| - r;
      assert m == (n - 1) * r;
      Split(s, a, r, m);
      Rounds(s[..m], a, r, n - 1, o);
      OneRound(s[m..], a + m, r, o);
    }
  }

  lemma Split(s: seq<int>, a: nat, r: nat, m: nat)
    requires r > 0 && m <= |s| && Circles(s, a, r)
    ensures Circles(s[..m], a, r) && Circles(s[m..], a + m, r)
    ensures multiset(s) == multiset(s[..m]) + multiset(s[m..])
  {
    assert s == s[..m] + s[m..];
    forall j | 0 <= j < |s| - m ensures s[m..][j] == (a + m + j) % r {
      assert s[m..][j] == s[m + j];
    }
  }

  ghost function Offsets(ds: seq<Dealt>): seq<int> { seq(|ds|, j requires 0 <= j < |ds| => Offset(ds[j])) }

  // Any Ratio dispatches in a row take each offset once.
  lemma EachOffsetOnce(m: Machine, acts: seq<Action>, first: nat, o: nat)
    requires Fits(m) && o < Ratio(m) && first + Ratio(m) <= |DealtIn(m, acts)|
    ensures multiset(Offsets(DealtIn(m, acts)[first..first + Ratio(m)]))[o] == 1
  {
    hide Ratio, DealtIn;
    InTurn(m, acts);
    var r, ds := Ratio(m), DealtIn(m, acts);
    OneRound(Offsets(ds[first..first + r]), 1 + first, r, o);
  }

  ghost function UnitsOf(ds: seq<Dealt>): seq<int> { seq(|ds|, j requires 0 <= j < |ds| => ds[j].c) }

  lemma {:induction false} Shifted(s: seq<int>, t: seq<int>, i: int, o: int)
    requires |s| == |t| && forall j :: 0 <= j < |s| ==> t[j] == s[j] + i
    ensures multiset(t)[o + i] == multiset(s)[o]
    decreases |s|
  {
    if s == [] {
      assert t == [];
    } else {
      var n := |s| - 1;
      Shifted(s[..n], t[..n], i, o);
      assert s == s[..n] + [s[n]] && t == t[..n] + [t[n]];
      assert multiset(s) == multiset(s[..n]) + multiset{s[n]};
      assert multiset(t) == multiset(t[..n]) + multiset{t[n]};
    }
  }

  // n * Ratio tasks that come out at one watcher are dealt out evenly: each of
  // the Ratio units from the watcher's number on gets n of them, and no other any.
  lemma DealtEvenly(m: Machine, acts: seq<Action>, i: nat, n: nat, c: nat)
    requires Fits(m) && |DealtIn(m, acts)| == n * Ratio(m)
    requires forall j :: 0 <= j < |DealtIn(m, acts)| ==> DealtIn(m, acts)[j].i == i
    ensures multiset(UnitsOf(DealtIn(m, acts)))[c] == if i <= c < i + Ratio(m) then n else 0
  {
    hide Ratio, DealtIn;
    InTurn(m, acts);
    var r, ds := Ratio(m), DealtIn(m, acts);
    var s, t := Offsets(ds), UnitsOf(ds);
    if i <= c < i + r {
      Rounds(s, 1, r, n, c - i);
      Shifted(s, t, i, c - i);
    } else {
      forall j | 0 <= j < |t| ensures t[j] != c {
        assert 0 <= Offset(ds[j]) < r;
      }
      assert c !in t;
    }
  }
}
