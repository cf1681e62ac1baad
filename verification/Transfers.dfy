// What a transfer does to each queue of each unit.
module Transfers {
  import opened Queues
  import opened Tokens
  import opened Forest
  import S = System

  predicate SameUnits(s: S.System, s': S.System) { |s'.ws| == |s.ws| && |s'.cs| == |s.cs| && |s'.ks| == |s.ks| }

  lemma WithQueuesGet(s: S.System, u: S.Where, q: Queues, v: S.Where)
    requires S.Exists(s, u) && S.Exists(s, v)
    ensures var s' := S.WithQueues(s, u, q);
            SameUnits(s, s') && S.QueuesOf(s', v) == if v == u then q else S.QueuesOf(s, v)
  {
  }

  lemma CountedGet(s: S.System, r: S.Route, v: S.Where)
    requires S.Exists(s, S.From(r).0) && S.Exists(s, v)
    ensures SameUnits(s, S.Counted(s, r)) && S.QueuesOf(S.Counted(s, r), v) == S.QueuesOf(s, v)
  {
  }

  lemma SameExists(s: S.System, s': S.System, v: S.Where)
    requires SameUnits(s, s')
    ensures S.Exists(s', v) <==> S.Exists(s, v)
  {
  }

  // One queue of one unit, before and after a transfer.
  lemma CarryGet(s: S.System, r: S.Route, j: nat, v: S.Where, p: Place)
    requires S.Enabled(s, S.Carry(r, j)) && S.Exists(s, v)
    ensures SameUnits(s, S.CarryStep(s, r, j)) && S.Exists(S.CarryStep(s, r, j), v)
    ensures var q := Get(S.QueuesOf(s, S.From(r).0), S.From(r).1);
            Get(S.QueuesOf(S.CarryStep(s, r, j), v), p)
            == (if (v, p) == S.From(r) then q[..j] + q[j + 1..]
                else if S.To(r) == Some((v, p)) then Get(S.QueuesOf(s, v), p) + [q[j]]
                else Get(S.QueuesOf(s, v), p))
  {
    hide S.WithQueues, S.Counted, S.QueuesOf, S.Exists, S.From, S.To, SameUnits, S.Ready, Push, Drop;
    ReadyExists(s, r, j);
    DropGet(S.QueuesOf(s, S.From(r).0), S.From(r).1, j, p);
    var (u, p0) := S.From(r);
    var q0 := Drop(S.QueuesOf(s, u), p0, j);
    var s0 := S.WithQueues(s, u, q0);
    WithQueuesGet(s, u, q0, v);
    WithQueuesGet(s, u, q0, u);
    SameExists(s, s0, v);
    SameExists(s, s0, u);
    var s1 := S.Counted(s0, r);
    CountedGet(s0, r, v);
    SameExists(s0, s1, v);
    FromIsNotTo(r);
    if S.To(r).Some? {
      var (v', p') := S.To(r).value;
      assert S.Exists(s, v');
      SameExists(s, s0, v');
      CountedGet(s0, r, v');
      SameExists(s0, s1, v');
      var q1 := Push(S.QueuesOf(s1, v'), p', Get(S.QueuesOf(s, u), p0)[j]);
      WithQueuesGet(s, u, q0, v');
      WithQueuesGet(s1, v', q1, v);
      SameExists(s1, S.WithQueues(s1, v', q1), v);
      SameTrans(s, s0, s1);
      SameTrans(s, s1, S.WithQueues(s1, v', q1));
      PushGet(S.QueuesOf(s1, v'), p', Get(S.QueuesOf(s, u), p0)[j], p);
    } else {
      SameTrans(s, s0, s1);
    }
  }

  lemma ReadyExists(s: S.System, r: S.Route, j: nat)
    requires S.Enabled(s, S.Carry(r, j))
    ensures S.Exists(s, S.From(r).0) && j < |Get(S.QueuesOf(s, S.From(r).0), S.From(r).1)|
    ensures S.To(r).Some? ==> S.Exists(s, S.To(r).value.0)
  {
  }

  lemma SameTrans(s: S.System, s1: S.System, s2: S.System)
    requires SameUnits(s, s1) && SameUnits(s1, s2)
    ensures SameUnits(s, s2)
  {
  }

  lemma DropGet(q: Queues, p: Place, j: nat, p': Place)
    requires j < |Get(q, p)|
    ensures Get(Drop(q, p, j), p') == if p' == p then Get(q, p)[..j] + Get(q, p)[j + 1..] else Get(q, p')
  {
  }

  lemma PushGet(q: Queues, p: Place, r: Req, p': Place)
    ensures Get(Push(q, p, r), p') == if p' == p then Get(q, p) + [r] else Get(q, p')
  {
  }

  lemma FromIsNotTo(r: S.Route)
    ensures S.To(r) != Some(S.From(r))
  {
  }

  lemma GetPutAll(q: Queues, puts: seq<Put>, p: Place)
    requires Avoids(puts, p)
    ensures Get(PutAll(q, puts), p) == Get(q, p)
  {
  }
}
