// The reads, writes and cycles of the sequential run in closed form, read off
// the entries of the assignments.
module SeqTraffic {
  import opened Forest
  import opened Seq
  import opened Tokens

  datatype Kind = Reads | Writes | Cycles

  // One entry: its watcher is read; its clause, if it asks for that, is read too,
  // and the list written, after a read of the list it is pushed to. Sixteen of
  // the cycles are for the clause itself.
  function OfEntry(k: Kind, e: Entry): nat
  {
    match k
    case Reads => if !e.readClause then 1 else if e.pushed.Some? then 3 else 2
    case Writes => if e.readClause then 1 else 0
    case Cycles => if e.readClause then 1 + 1 + 1 + 16 + 1 else 2
  }

  // An assignment with no watchers costs nothing. Others cost a read of their
  // list, their entries, and what those generate.
  ghost function OfAssignment(k: Kind, a: Assign): nat
  {
    if a.watchers == [] then 0 else (if k.Writes? then 0 else 1) + OfEntries(k, a.watchers)
  }

  ghost function OfEntries(k: Kind, es: seq<Entry>): nat {
    if es == [] then 0 else OfEntry(k, es[0]) + OfImplied(k, es[0]) + OfEntries(k, es[1..])
  }

  ghost function OfImplied(k: Kind, e: Entry): nat
  {
    match e.generated
    case Null => 0
    case Implies(child) => if e.readClause && e.flagged then OfAssignment(k, child) else 0
  }

  ghost function OfTrail(k: Kind, q: seq<Req>): nat {
    if q == [] then 0 else OfAssignment(k, q[0].a) + OfTrail(k, q[1..])
  }

  // The part of some work.
  ghost function Part(k: Kind, x: Work): nat
  {
    match k
    case Reads => x.issued
    case Writes => x.written
    case Cycles => x.cycles
  }

  lemma PartPlus(k: Kind, x: Work, y: Work)
    ensures Part(k, Plus(x, y)) == Part(k, x) + Part(k, y) && Part(k, Seq.NOTHING) == 0
  {
  }

  lemma WatcherPart(k: Kind, a: Assign, w: nat)
    requires w < |a.watchers|
    ensures Part(k, OfWatcher(a, w)) == OfEntry(k, a.watchers[w])
  {
  }

  lemma {:induction false} WatchersPart(k: Kind, a: Assign, w: nat)
    requires w <= |a.watchers|
    ensures Part(k, OfWatchers(a, w)) == OfEntries(k, a.watchers[w..])
    decreases Height(a), 0, |a.watchers| - w
  {
    hide Part, Plus, OfWatcher, OfEntry, Height, OfAssign, OfAssignment;
    PartPlus(k, Seq.NOTHING, Seq.NOTHING);
    if w < |a.watchers| {
      var own, e := OfWatcher(a, w), a.watchers[w];
      var g := if Generates(a, w) then OfAssign(Child(a, w).child) else Seq.NOTHING;
      WatcherPart(k, a, w);
      ChildLower(a, w);
      if Generates(a, w) { AssignPart(k, Child(a, w).child); }
      WatchersPart(k, a, w + 1);
      PartPlus(k, own, g);
      PartPlus(k, Plus(own, g), OfWatchers(a, w + 1));
      assert a.watchers[w..][0] == e && a.watchers[w..][1..] == a.watchers[w + 1..];
    }
  }

  lemma {:induction false} AssignPart(k: Kind, a: Assign)
    ensures Part(k, OfAssign(a)) == OfAssignment(k, a)
    decreases Height(a), 1, 0
  {
    hide Plus, OfWatchers, OfEntries, Height;
    PartPlus(k, Work(multiset{}, 1, 0, 1), OfWatchers(a, 0));
    if a.watchers != [] {
      WatchersPart(k, a, 0);
      assert a.watchers[0..] == a.watchers;
    }
  }

  // What the sequential run issues, writes and takes besides waiting, for a whole
  // worklist and all that it generates.
  lemma {:induction false} QueuePart(k: Kind, q: seq<Req>)
    ensures Part(k, OfQueue(q)) == OfTrail(k, q)
    decreases |q|
  {
    hide Part, Plus, OfAssign, OfAssignment;
    PartPlus(k, Seq.NOTHING, Seq.NOTHING);
    if q != [] {
      AssignPart(k, q[0].a);
      QueuePart(k, q[1..]);
      PartPlus(k, OfAssign(q[0].a), OfQueue(q[1..]));
    }
  }

  // The rest of total_cycle is waiting: it is bounded by what the reads wait for.
  lemma {:induction false} WaitsBetween(wait: nat -> nat, i: nat, j: nat, lo: nat, hi: nat)
    requires i <= j && forall k: nat :: i <= k < j ==> lo <= wait(k) <= hi
    ensures lo * (j - i) <= Waits(wait, i, j) <= hi * (j - i)
    decreases j
  {
    if i < j {
      WaitsBetween(wait, i, j - 1, lo, hi);
      assert lo <= wait(j - 1) <= hi;
      assert lo * (j - i) == lo * (j - 1 - i) + lo && hi * (j - i) == hi * (j - 1 - i) + hi;
    }
  }
}
