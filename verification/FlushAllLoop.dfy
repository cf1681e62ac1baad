// acc::flush_all of include/acc.h: flush the list writers, then cycle until the
// accelerator is empty. Its closing assert, that every writer is flushed, holds
// exactly if, at the call, no request waits before a writer or in the network to
// it, and no token in the pipeline will still write a list.
module FlushAllLoop {
  import opened Bags
  import opened Conservation
  import opened Counters
  import opened Forest
  import opened Queues
  import opened System
  import opened Schedules
  import opened Tokens
  import L = ListWriter
  import Merging
  import Traffic
  import WriteDemand

  // An empty accelerator can do nothing.
  lemma NothingEnabled(s: System, a: Action)
    requires Empty(s)
    ensures !Enabled(s, a)
  {
    hide Config, Enabled;
    EmptyIsDrained(s);
    if Enabled(s, a) { TakenIsHeld(s, a); }
  }

  lemma {:induction false} StaysEmpty(s: System, acts: seq<Action>)
    requires Empty(s)
    ensures Run(s, acts) == s && HandedOver(s, acts) == []
    decreases |acts|
  {
    hide Empty;
    if acts != [] {
      StaysEmpty(s, acts[..|acts| - 1]);
      NothingEnabled(s, acts[|acts| - 1]);
    }
  }

  // The list writes that a run hands over to the writers.
  ghost function HandedOver(s: System, acts: seq<Action>): seq<Req>
    decreases |acts|
  {
    if acts == [] then []
    else
      var before, a := acts[..|acts| - 1], acts[|acts| - 1];
      HandedOver(s, before)
      + if Enabled(Run(s, before), a) && a.Carry? && a.r.WatcherToListWriter? then [Taken(Run(s, before), a)] else []
  }

  // Only a flush moves the mark of the last flush, and only a cycle takes.
  lemma NextTakes(g: L.Limits, u: L.State, b: Merging.Book, e: L.Event)
    requires Merging.Linked(u, b) && !e.FlushAll?
    ensures Merging.Note(g, u, b, e).flushedAt == b.flushedAt
    ensures |b.taken| <= |Merging.Note(g, u, b, e).taken|
    ensures u.input == [] ==> Merging.Note(g, u, b, e).taken == b.taken
    ensures u.input == [] && !e.Arrive? ==> L.Next(g, u, e).input == []
  {
    hide L.Accept, Merging.Settle, Merging.CloseAll, L.Live;
  }

  // A writer is flushed at the end exactly if it took nothing since its flush.
  lemma {:induction false} TakenSince(g: L.Limits, es: seq<L.Event>, later: seq<L.Event>)
    requires L.FlushAll !in later
    ensures Merging.Books(g, es + [L.FlushAll] + later).flushedAt == |Merging.Books(g, es).taken|
    ensures |Merging.Books(g, es).taken| <= |Merging.Books(g, es + [L.FlushAll] + later).taken|
    decreases |later|
  {
    hide Merging.CloseAll, Merging.Note, L.Next;
    var all := es + [L.FlushAll] + later;
    if later == [] {
      assert all == es + [L.FlushAll];
      Merging.LastEvent(g, es);
      Merging.CloseAllTakes(L.Run(g, es).reqs, Merging.Books(g, es));
    } else {
      var before := later[..|later| - 1];
      TakenSince(g, es, before);
      assert all[..|all| - 1] == es + [L.FlushAll] + before;
      NextTakes(g, L.Run(g, all[..|all| - 1]), Merging.Books(g, all[..|all| - 1]), later[|later| - 1]);
    }
  }

  lemma FlushedAtEndIff(g: L.Limits, es: seq<L.Event>, later: seq<L.Event>)
    requires Merging.Sensible(g) && Merging.Sized(es + [L.FlushAll] + later) && L.FlushAll !in later
    ensures L.IsFlushed(L.Run(g, es + [L.FlushAll] + later))
       <==> |Merging.Books(g, es + [L.FlushAll] + later).taken| == |Merging.Books(g, es).taken|
  {
    hide L.Run, Merging.Books, L.IsFlushed, Merging.Sized;
    TakenSince(g, es, later);
    Merging.FlushedIff(g, es + [L.FlushAll] + later);
  }

  // Nothing can be taken that did not arrive.
  lemma {:induction false} TakesWhatArrived(g: L.Limits, es: seq<L.Event>, later: seq<L.Event>)
    requires L.Run(g, es).input == [] && L.FlushAll !in later
    requires forall k :: 0 <= k < |later| ==> !later[k].Arrive?
    ensures L.Run(g, es + [L.FlushAll] + later).input == []
    ensures Merging.Books(g, es + [L.FlushAll] + later).taken == Merging.Books(g, es).taken
    decreases |later|
  {
    hide Merging.CloseAll, Merging.Note, L.Next;
    var all := es + [L.FlushAll] + later;
    if later == [] {
      assert all == es + [L.FlushAll];
      Merging.LastEvent(g, es);
      Merging.CloseAllTakes(L.Run(g, es).reqs, Merging.Books(g, es));
    } else {
      var before := later[..|later| - 1];
      TakesWhatArrived(g, es, before);
      assert all[..|all| - 1] == es + [L.FlushAll] + before;
      NextTakes(g, L.Run(g, all[..|all| - 1]), Merging.Books(g, all[..|all| - 1]), later[|later| - 1]);
    }
  }

  // The requests that arrive at a writer during the loop are list writes that
  // the pipeline hands over.
  ghost predicate FedBy(later: seq<L.Event>, handed: seq<Req>)
  {
    forall k :: 0 <= k < |later| && later[k].Arrive? ==> later[k].r in handed
  }

  // What a run hands over is what it has logged as list writes.
  lemma {:induction false} HandedIsLogged(s: System, acts: seq<Action>)
    ensures |HandedOver(s, acts)| == Total(WriteDemand.Writes(), Books(s, acts).log)
    decreases |acts|
  {
    hide Total, Enabled, Taken, GivenUp, Run, Falls, WriteDemand.Writes, Tok;
    if acts == [] {
      TotalNone(WriteDemand.Writes());
    } else {
      var before, a := acts[..|acts| - 1], acts[|acts| - 1];
      HandedIsLogged(s, before);
      if Enabled(Run(s, before), a) {
        var t := TakenToken(Run(s, before), a);
        TotalAdd(WriteDemand.Writes(), Books(s, before).log, t);
        WriteDemand.OwnWeight(t);
        TokenPlace(Source(a), Taken(Run(s, before), a));
        OnlyListWrites(a);
      }
    }
  }

  lemma TokenPlace(p: Place, r: Req)
    ensures Tok(p, r).p == p
  {
  }

  lemma OnlyListWrites(a: Action)
    ensures Source(a).WList? <==> a.Carry? && a.r.WatcherToListWriter?
  {
  }

  // Where no token leads to a list write, no run hands one over, drained or not
  // and with fall-throughs or without.
  lemma NoneLeadsNoneHanded(s: System, acts: seq<Action>)
    requires AllWellFormed(Config(s)) && forall t :: t in Config(s) ==> !WriteDemand.LeadsToWrite(t)
    ensures HandedOver(s, acts) == []
  {
    hide Total, Config, Run, Books, HandedOver, WellFormed, WriteDemand.LeadsToWrite, WriteDemand.Writes, ExpandAll;
    HandedIsLogged(s, acts);
    Conserved(s, acts);
    WriteDemand.NoDemandIff(Config(s));
    var b, f := Books(s, acts), WriteDemand.Writes();
    TotalUnion(f, b.log + ExpandAll(Config(Run(s, acts))), b.given);
    TotalUnion(f, b.log, ExpandAll(Config(Run(s, acts))));
  }

  // flush_all, started with no list write to come and nothing before the writer,
  // ends with the writer flushed, whatever the cycles of its loop do.
  lemma FlushAllFlushes(s: System, acts: seq<Action>, g: L.Limits, es: seq<L.Event>, later: seq<L.Event>)
    requires AllWellFormed(Config(s)) && forall t :: t in Config(s) ==> !WriteDemand.LeadsToWrite(t)
    requires L.Run(g, es).input == []
    requires Merging.Sensible(g) && Merging.Sized(es) && L.FlushAll !in later
    requires FedBy(later, HandedOver(s, acts))
    ensures L.IsFlushed(L.Run(g, es + [L.FlushAll] + later))
    ensures Merging.WrittenThrough(Merging.Books(g, es + [L.FlushAll] + later).taken,
                                   Merging.Books(g, es + [L.FlushAll]).sent)
  {
    hide L.Run, Merging.Books, Config, HandedOver, Merging.WrittenThrough, WellFormed, WriteDemand.LeadsToWrite;
    NoneLeadsNoneHanded(s, acts);
    assert forall k :: 0 <= k < |later| ==> !later[k].Arrive?;
    TakesWhatArrived(g, es, later);
    FlushedAtEndIff(g, es, later);
    Merging.FlushWritesThrough(g, es);
  }

  // A drained run without fall-through hands over no write exactly if none of
  // the tokens it started with leads to one.
  lemma NoneHandedIff(s: System, acts: seq<Action>)
    requires AllWellFormed(Config(s)) && Config(Run(s, acts)) == multiset{} && Books(s, acts).falls == 0
    ensures HandedOver(s, acts) == [] <==> forall t :: t in Config(s) ==> !WriteDemand.LeadsToWrite(t)
  {
    hide Total, Config, Run, Books, HandedOver, WellFormed, WriteDemand.LeadsToWrite, WriteDemand.Writes;
    HandedIsLogged(s, acts);
    DrainedLog(s, acts);
    WriteDemand.NoDemandIff(Config(s));
  }

  lemma {:induction false} ArrivalsThen(es: seq<L.Event>, more: seq<L.Event>)
    ensures Merging.Arrivals(es + more) == Merging.Arrivals(es) + Merging.Arrivals(more)
    decreases |more|
  {
    if more == [] {
      assert es + more == es;
    } else {
      var n := |more| - 1;
      ArrivalsThen(es, more[..n]);
      assert (es + more)[..|es + more| - 1] == es + more[..n];
    }
  }

  // One writer, flushed and then fed until its input is empty, is flushed in the
  // end exactly if nothing waited before it and nothing came.
  lemma FlushedIffUnfed(g: L.Limits, es: seq<L.Event>, later: seq<L.Event>)
    requires Merging.Sensible(g) && Merging.Sized(es) && Merging.Sized(later) && L.FlushAll !in later
    requires L.Run(g, es + [L.FlushAll] + later).input == []
    ensures L.IsFlushed(L.Run(g, es + [L.FlushAll] + later))
       <==> L.Run(g, es).input == [] && Merging.Arrivals(later) == []
  {
    var all := es + [L.FlushAll] + later;
    SizedAll(es, later);
    FlushNotArrival(es);
    hide L.Run, Merging.Books, L.IsFlushed, Merging.Sized, Merging.Arrivals, Merging.Inv, L.Key;
    FlushedAtEndIff(g, es, later);
    Merging.RunKeeps(g, es);
    Merging.RunKeeps(g, all);
    ArrivalsThen(es + [L.FlushAll], later);
  }

  lemma SizedAll(es: seq<L.Event>, later: seq<L.Event>)
    requires Merging.Sized(es) && Merging.Sized(later)
    ensures Merging.Sized(es + [L.FlushAll] + later)
  {
  }

  lemma FlushNotArrival(es: seq<L.Event>)
    ensures Merging.Arrivals(es + [L.FlushAll]) == Merging.Arrivals(es)
  {
    assert (es + [L.FlushAll])[..|es|] == es;
  }

  // One writer in flush_all: its limits, what happened to it before the flush,
  // and in the loop.
  datatype WriterRun = WriterRun(g: L.Limits, es: seq<L.Event>, later: seq<L.Event>)

  ghost function AtCall(w: WriterRun): L.State { L.Run(w.g, w.es) }
  ghost function AtEnd(w: WriterRun): L.State { L.Run(w.g, w.es + [L.FlushAll] + w.later) }

  // The loop feeds the writer requests with a list, never flushes it, and ends
  // with nothing before it.
  ghost predicate Looped(w: WriterRun)
  {
    && Merging.Sensible(w.g) && Merging.Sized(w.es) && Merging.Sized(w.later) && L.FlushAll !in w.later
    && AtEnd(w).input == []
  }

  ghost function AllArrivals(ws: seq<WriterRun>): multiset<Req>
  {
    if ws == [] then multiset{} else multiset(Merging.Arrivals(ws[0].later)) + AllArrivals(ws[1..])
  }

  lemma {:induction false} NoArrivalsIff(ws: seq<WriterRun>)
    ensures AllArrivals(ws) == multiset{} <==> forall i :: 0 <= i < |ws| ==> Merging.Arrivals(ws[i].later) == []
  {
    hide Merging.Arrivals;
    if ws != [] {
      NoArrivalsIff(ws[1..]);
      var q := Merging.Arrivals(ws[0].later);
      assert forall i :: 0 <= i < |ws| - 1 ==> ws[1..][i] == ws[i + 1];
      if q != [] { assert q[0] in multiset(q) + AllArrivals(ws[1..]); }
      if AllArrivals(ws) == multiset{} {
        assert |AllArrivals(ws)| == |multiset(q)| + |AllArrivals(ws[1..])|;
        forall i | 0 <= i < |ws| ensures Merging.Arrivals(ws[i].later) == [] {
          if i > 0 { assert ws[i] == ws[1..][i - 1]; }
        }
      }
    }
  }

  // The closing assert of flush_all, for all writers together, in terms of the
  // state at the call, when `net` is in the network to the writers. The loop has
  // drained the pipeline without a fall-through, and what came to the writers is
  // what was in the network and what the pipeline handed over.
  lemma FlushAllIff(s: System, acts: seq<Action>, net: multiset<Req>, ws: seq<WriterRun>)
    requires AllWellFormed(Config(s)) && Config(Run(s, acts)) == multiset{} && Books(s, acts).falls == 0
    requires forall i :: 0 <= i < |ws| ==> Looped(ws[i])
    requires AllArrivals(ws) == net + multiset(HandedOver(s, acts))
    ensures (forall i :: 0 <= i < |ws| ==> L.IsFlushed(AtEnd(ws[i])))
       <==> && (forall i :: 0 <= i < |ws| ==> AtCall(ws[i]).input == [])
            && net == multiset{}
            && (forall t :: t in Config(s) ==> !WriteDemand.LeadsToWrite(t))
  {
    hide L.Run, Merging.Arrivals, Merging.Sized, L.IsFlushed, Config, Run, Books, HandedOver, WellFormed;
    hide WriteDemand.LeadsToWrite, AllArrivals;
    NoneHandedIff(s, acts);
    NoArrivalsIff(ws);
    NoneOfEither(net, HandedOver(s, acts));
    forall i | 0 <= i < |ws|
      ensures L.IsFlushed(AtEnd(ws[i])) <==> AtCall(ws[i]).input == [] && Merging.Arrivals(ws[i].later) == []
    {
      FlushedIffUnfed(ws[i].g, ws[i].es, ws[i].later);
    }
  }

  lemma NoneOfEither<X>(m: multiset<X>, q: seq<X>)
    ensures m + multiset(q) == multiset{} <==> m == multiset{} && q == []
  {
    assert |m + multiset(q)| == |m| + |q|;
  }

  // A call that fails: one list write reaches the writer in the loop.
  lemma FlushAllFails()
    ensures var w := WriterRun(L.Limits(1, 1), [], [L.Arrive(Merging.WriteTo(1)), L.Cycle]);
            Looped(w) && !L.IsFlushed(AtEnd(w))
  {
    var r := Merging.WriteTo(1);
    var g, later := L.Limits(1, 1), [L.Arrive(r), L.Cycle];
    var all := [] + [L.FlushAll] + later;
    assert all == [L.FlushAll, L.Arrive(r), L.Cycle];
    OneFed(g, r);
    assert Merging.Arrivals(later) != [] by {
      assert later[..1] == [L.Arrive(r)];
      assert later[..1][..0] == [];
      assert Merging.Arrivals([L.Arrive(r)]) == [r];
    }
    assert Merging.Sized([]) && Merging.Sized(later);
    hide L.Run, Merging.Arrivals, L.IsFlushed, Merging.Sized;
    FlushedIffUnfed(g, [], later);
  }

  lemma OneFed(g: L.Limits, r: Req)
    requires Size(r.a) > 0
    ensures L.Run(g, [L.FlushAll, L.Arrive(r), L.Cycle]).input == []
  {
    var all := [L.FlushAll, L.Arrive(r), L.Cycle];
    assert all[..2] == [L.FlushAll, L.Arrive(r)] && all[..2][..1] == [L.FlushAll] && all[..1][..0] == [];
    assert L.Run(g, all[..1]).input == [];
    assert L.Run(g, all[..2]).input == [r];
    assert [r][1..] == [];
    AcceptInput(g, L.Run(g, all[..2]).(input := []), r.(kind := WriteWatcherList));
  }

  lemma AcceptInput(g: L.Limits, u: L.State, r: Req)
    ensures L.Accept(g, u, r).input == u.input
  {
    hide L.Live, L.Key;
  }
}
