// The implication forest: what an assign_wrap holds, as an immutable record.
// The record is an inductive datatype, so `generated` cannot be cyclic.
module Forest {

  datatype Option<+T> = None | Some(value: T)

  // Entry i of a watcher list: whether its clause must be read, how many
  // literals that clause has, the assignment it implies, and the other list the
  // watcher is pushed to. `flagged` is is_genereated(i); `generated` is
  // get_generated(i), Null standing for the null pointer.
  datatype Entry = Entry(
    readClause: bool, literals: nat,
    flagged: bool, generated: Implied,
    pushed: Option<int>)

  datatype Implied = Null | Implies(child: Assign)

  datatype Assign = Assign(value: int, watchers: seq<Entry>)

  function Size(a: Assign): nat { |a.watchers| }

  predicate ReadsClause(a: Assign, w: nat) { w < Size(a) && a.watchers[w].readClause }

  function Literals(a: Assign, w: nat): nat { if w < Size(a) then a.watchers[w].literals else 0 }

  function Child(a: Assign, w: nat): Implied {
    if w < Size(a) then a.watchers[w].generated else Null
  }

  // The list that the write for watcher w goes to.
  function ListId(a: Assign, w: nat): int {
    if w < Size(a) && a.watchers[w].pushed.Some? then a.watchers[w].pushed.value else a.value
  }

  // Height of the tree of implied assignments below a.
  ghost function Height(a: Assign): nat { 1 + Tallest(a.watchers) }

  ghost function Tallest(es: seq<Entry>): nat {
    if es == [] then 0
    else
      var h, rest := EntryHeight(es[0]), Tallest(es[1..]);
      if h > rest then h else rest
  }

  ghost function EntryHeight(e: Entry): nat {
    match e.generated
    case Null => 0
    case Implies(child) => Height(child)
  }

  lemma {:induction false} TallestBounds(es: seq<Entry>, i: nat)
    requires i < |es| && es[i].generated.Implies?
    ensures Height(es[i].generated.child) <= Tallest(es)
  {
    if i > 0 {
      assert es[i] == es[1..][i - 1];
      TallestBounds(es[1..], i - 1);
    }
  }

  lemma ChildLower(a: Assign, w: nat)
    ensures Child(a, w).Implies? ==> Height(Child(a, w).child) < Height(a)
  {
    if Child(a, w).Implies? { TallestBounds(a.watchers, w); }
  }
}
