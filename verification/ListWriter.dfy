// src/watcher_list_write_unit.cc and include/watcher_list_write_unit.h: writes
// to the same watcher list are merged, and one write stands for all of them. An
// aging queue, cleaned only when an entry must be evicted, says which entry
// goes first.
module ListWriter {
  import opened Bags
  import opened Forest
  import opened Tokens

  // The unit as the source sees it. `failed` records that it threw, or read the
  // front of an empty aging queue.
  datatype State = State(
    input: seq<Req>, output: seq<Req>,
    counts: map<int, nat>, reqs: map<int, Req>, aging: seq<int>,
    origin: nat, merged: nat, failed: bool)

  datatype Limits = Limits(maxMerge: nat, maxEntry: nat)

  function Fresh(): State { State([], [], map[], map[], [], 0, 0, false) }

  function Key(r: Req): int { ListId(r.a, r.w) }

  // The aging queue from its first live entry on.
  function Live(aging: seq<int>, reqs: map<int, Req>): seq<int>
  {
    if aging == [] || aging[0] in reqs then aging else Live(aging[1..], reqs)
  }

  // The entry for k is written out as r and closed.
  function Emit(u: State, k: int, r: Req): State
    requires k in u.counts
  {
    u.(output := u.output + [r],
       origin := u.origin + u.counts[k],
       merged := u.merged + 1,
       counts := u.counts - {k},
       reqs := u.reqs - {k})
  }

  // Stale ids at the front go, and the first live one is evicted.
  function Evict(u: State): State
  {
    var q := Live(u.aging, u.reqs);
    if q == [] || q[0] !in u.counts || q[0] !in u.reqs then u.(aging := q, failed := true)
    else Emit(u.(aging := q[1..]), q[0], u.reqs[q[0]])
  }

  function Insert(u: State, k: int, r: Req): State
  {
    u.(aging := u.aging + [k], counts := u.counts[k := 1], reqs := u.reqs[k := r])
  }

  // The request r has left the input.
  function Accept(g: Limits, u: State, r: Req): State
  {
    var k := Key(r);
    if k in u.counts then
      (if u.counts[k] < g.maxMerge then u.(counts := u.counts[k := u.counts[k] + 1])
       else Emit(u, k, r))
    else Insert(if |u.counts| >= g.maxEntry then Evict(u) else u, k, r)
  }

  function Step(g: Limits, u: State): State
  {
    if u.input == [] then u
    else
      var r, u' := u.input[0].(kind := WriteWatcherList), u.(input := u.input[1..]);
      if Size(r.a) == 0 then u'.(failed := true) else Accept(g, u', r)
  }

  // The least key, as the ordered map of the source is walked.
  lemma {:induction false} LeastOf(s: set<int>) returns (k: int)
    requires s != {}
    ensures k in s
    ensures forall j :: j in s ==> k <= j
  {
    k := Member(s);
    if s - {k} == {} {
      assert s == {k};
    } else {
      var o := LeastOf(s - {k});
      forall j | j in s ensures o <= j || k <= j {
        assert j == k || j in s - {k};
      }
      if o < k { k := o; }
    }
  }

  function Least(s: set<int>): (k: int)
    requires s != {}
    ensures k in s
    ensures forall j :: j in s ==> k <= j
  {
    assert exists k :: k in s && forall j :: j in s ==> k <= j by {
       var k := LeastOf(s);
       assert k in s && forall j :: j in s ==> k <= j;
    }
    var k :| k in s && forall j :: j in s ==> k <= j;
    k
  }

  // The requests of the live entries, in the order of their keys.
  function InOrder(reqs: map<int, Req>): seq<Req>
    decreases |reqs|
  {
    if reqs == map[] then []
    else
      assert reqs.Keys != {};
      var k := Least(reqs.Keys);
      [reqs[k]] + InOrder(reqs - {k})
  }

  function Flush(u: State): State
  {
    u.(output := u.output + InOrder(u.reqs), counts := map[], reqs := map[], aging := [])
  }

  predicate IsFlushed(u: State) { u.reqs == map[] && u.counts == map[] && u.aging == [] }

  predicate Empty(u: State) { u.input == [] && u.output == [] }

  // What happens to a unit: a request arrives, a cycle passes, a write is taken
  // away, the unit is flushed.
  datatype Event = Arrive(r: Req) | Cycle | Leave | FlushAll

  function Next(g: Limits, u: State, e: Event): State
  {
    match e
    case Arrive(r) => u.(input := u.input + [r])
    case Cycle => Step(g, u)
    case Leave => if u.output == [] then u else u.(output := u.output[1..])
    case FlushAll => Flush(u)
  }

  function Run(g: Limits, es: seq<Event>): State
    decreases |es|
  {
    if es == [] then Fresh() else Next(g, Run(g, es[..|es| - 1]), es[|es| - 1])
  }

  // What is skipped is stale, and what is left starts with a live id.
  lemma {:induction false} LiveSuffix(aging: seq<int>, reqs: map<int, Req>)
    ensures var q := Live(aging, reqs); |q| <= |aging| && q == aging[|aging| - |q|..]
    ensures var q := Live(aging, reqs); q != [] ==> q[0] in reqs
    ensures var q := Live(aging, reqs); forall i :: 0 <= i < |aging| - |q| ==> aging[i] !in reqs
    decreases |aging|
  {
    if aging != [] && aging[0] !in reqs {
      var rest := aging[1..];
      LiveSuffix(rest, reqs);
      var q := Live(rest, reqs);
      assert Live(aging, reqs) == q;
      assert rest[|rest| - |q|..] == aging[|aging| - |q|..];
      forall i | 0 <= i < |aging| - |q| ensures aging[i] !in reqs {
        if i > 0 { assert aging[i] == rest[i - 1]; }
      }
    }
  }
}
