// The transfer passes of src/acc.cc over the units as objects. Each moves the
// front of one queue of one unit, or an answer of the memory, as module System
// says.
module Acc {
  import opened Forest
  import opened Queues
  import opened Tokens
  import Cycles
  import Dispatch
  import S = System
  import WatcherUnit
  import ClauseUnit
  import ClauseWriter
  import Routing

  class Accelerator {
    const watchers: seq<WatcherUnit.Unit>
    const clauses: seq<ClauseUnit.Unit>
    const clauseWriters: seq<ClauseWriter.Unit>
    const singleWatcher: bool
    var inTrail: seq<Req>
    // What the network from watchers to clauses, and the memory system, hold.
    var toClause: seq<Req>
    var watcherReads: seq<seq<Req>>
    var clauseReads: seq<seq<Req>>
    // The round robin of the dispatch.
    var nextClause: nat
    // What the list writers and the cache have been handed.
    var listWrites: seq<Req>
    var clauseWrites: seq<Req>

    function Shape(): Routing.Machine { Routing.Machine(|watchers|, |clauses|, 1) }

    ghost predicate Valid()
      reads this
    {
      && Routing.Fits(Shape()) && |clauseWriters| == |watchers|
      && |watcherReads| == |watchers| && |clauseReads| == |clauses|
      && nextClause < Routing.Ratio(Shape())
      && (forall i, j :: 0 <= i < j < |watchers| ==> watchers[i] != watchers[j])
      && (forall i, j :: 0 <= i < j < |clauses| ==> clauses[i] != clauses[j])
      && (forall i, j :: 0 <= i < j < |clauseWriters| ==> clauseWriters[i] != clauseWriters[j])
    }

    ghost function WatcherAt(i: nat): S.Watcher.State
      requires i < |watchers| && i < |watcherReads|
      reads this, watchers[i]
    {
      var u := watchers[i].View();
      u.(q := u.q[WMem := watcherReads[i]])
    }

    ghost function ClauseAt(i: nat): S.Clause.State
      requires i < |clauses| && i < |clauseReads|
      reads this, clauses[i]
    {
      var u := clauses[i].View();
      u.(q := u.q[CMem := clauseReads[i]])
    }

    ghost function View(): S.System
      requires Valid()
      reads this, watchers, clauses, clauseWriters
    {
      S.System(map[Trail := inTrail, CNet := toClause],
               seq(|watchers|, i requires 0 <= i < |watchers| requires Valid() reads this, watchers =>
                 WatcherAt(i)),
               seq(|clauses|, i requires 0 <= i < |clauses| requires Valid() reads this, clauses =>
                 ClauseAt(i)),
               seq(|clauseWriters|, i requires 0 <= i < |clauseWriters| reads clauseWriters =>
                 clauseWriters[i].View()))
    }

    // What the view is made of.
    lemma ViewParts()
      requires Valid()
      ensures var v := View();
              && v.top == map[Trail := inTrail, CNet := toClause]
              && |v.ws| == |watchers| && |v.cs| == |clauses| && |v.ks| == |clauseWriters|
              && (forall i :: 0 <= i < |watchers| ==> v.ws[i] == WatcherAt(i))
              && (forall i :: 0 <= i < |clauses| ==> v.cs[i] == ClauseAt(i))
              && (forall i :: 0 <= i < |clauseWriters| ==> v.ks[i] == clauseWriters[i].View())
    {
    }

    // A view with these parts is this system.
    lemma ViewIs(s: S.System)
      requires Valid()
      requires s.top == map[Trail := inTrail, CNet := toClause]
      requires |s.ws| == |watchers| && |s.cs| == |clauses| && |s.ks| == |clauseWriters|
      requires forall i :: 0 <= i < |watchers| ==> WatcherAt(i) == s.ws[i]
      requires forall i :: 0 <= i < |clauses| ==> ClauseAt(i) == s.cs[i]
      requires forall i :: 0 <= i < |clauseWriters| ==> clauseWriters[i].View() == s.ks[i]
      ensures View() == s
    {
    }

    // The queues of a unit, as the view shows them.
    lemma WatcherQueues(i: nat)
      requires Valid() && i < |watchers|
      ensures var q, u := WatcherAt(i).q, watchers[i];
              && Get(q, WTask) == u.inTask && Get(q, WOut) == u.outMemoryRead && Get(q, WSend) == u.outSend
              && Get(q, WList) == u.outWriteList && Get(q, WMem) == watcherReads[i]
    {
    }

    lemma ClauseQueues(i: nat)
      requires Valid() && i < |clauses|
      ensures var q, u := ClauseAt(i).q, clauses[i];
              && Get(q, COut) == u.outMemoryRead && Get(q, CGen) == u.out && Get(q, CWrite) == u.outClauseWrite
              && Get(q, CMem) == clauseReads[i] && ClauseAt(i).ongoing == u.onGoing
    {
    }

    // One pass per hook. A pass that finds nothing to move changes nothing.
    // The watcher is the one its value is dealt to (Dispatch.DealtInTurn).
    method FromTrailToWatcher() returns (busy: bool)
      requires Valid()
      modifies `inTrail, watchers
      ensures Valid()
      ensures old(inTrail) == [] ==> View() == old(View())
      ensures old(inTrail) != [] ==>
              var w := Dispatch.WatcherFor(old(inTrail)[0].a.value, |watchers|, singleWatcher);
              View() == S.Apply(old(View()), S.Carry(S.TrailToWatcher(w), 0))
              && (busy <==> |old(watchers[w].inTask)| < 64)
      ensures |inTrail| == |old(inTrail)| - if busy then 1 else 0
    {
      hide View, S.Apply, Dispatch.WatcherFor, WatcherUnit.Unit.View, ClauseUnit.Unit.View, ClauseWriter.Unit.View;
      ghost var before := View();
      ViewParts();
      var id := if inTrail == [] then 0 else Dispatch.WatcherFor(inTrail[0].a.value, |watchers|, singleWatcher);
      busy := inTrail != [] && |watchers[id].inTask| < S.IN_SIZE;
      WatcherQueues(id);
      TrailToWatcherIs(before, id);
      if busy {
        PushAside(watchers[id].View().q, WTask, inTrail[0], WMem, watcherReads[id]);
        watchers[id].PushTask(inTrail[0]);
        inTrail := inTrail[1..];
        ViewIs(S.Apply(before, S.Carry(S.TrailToWatcher(id), 0)));
      }
    }

    method FromClauseToTrail(i: nat) returns (busy: bool)
      requires Valid() && i < |clauses|
      modifies `inTrail, clauses[i]
      ensures Valid() && busy == (old(clauses[i].out) != [])
      ensures View() == S.Apply(old(View()), S.Carry(S.ClauseToTrail(i), 0))
    {
      hide View, S.Apply, WatcherUnit.Unit.View, ClauseUnit.Unit.View, ClauseWriter.Unit.View;
      ghost var before := View();
      ViewParts();
      ClauseQueues(i);
      ClauseToTrailIs(before, i);
      busy := clauses[i].out != [];
      if busy {
        PopAside(clauses[i].View().q, CGen, CMem, clauseReads[i]);
        var req := clauses[i].PopFromOut();
        inTrail := inTrail + [req];
        ViewIs(S.Apply(before, S.Carry(S.ClauseToTrail(i), 0)));
      }
    }

    method FromWatcherToWriteUnit(i: nat) returns (busy: bool)
      requires Valid() && i < |watchers|
      modifies `listWrites, watchers[i]
      ensures Valid() && busy == (old(watchers[i].outWriteList) != [])
      ensures View() == S.Apply(old(View()), S.Carry(S.WatcherToListWriter(i), 0))
      ensures listWrites == old(listWrites) + if busy then [old(watchers[i].outWriteList)[0]] else []
    {
      hide View, S.Apply, WatcherUnit.Unit.View, ClauseUnit.Unit.View, ClauseWriter.Unit.View;
      ghost var before := View();
      ViewParts();
      WatcherQueues(i);
      WatcherToListWriterIs(before, i);
      busy := watchers[i].outWriteList != [];
      if busy {
        PopAside(watchers[i].View().q, WList, WMem, watcherReads[i]);
        var req := watchers[i].PopWriteList();
        listWrites := listWrites + [req];
        ViewIs(S.Apply(before, S.Carry(S.WatcherToListWriter(i), 0)));
      }
    }

    method FromWatcherToNetwork(i: nat, room: bool) returns (busy: bool)
      requires Valid() && i < |watchers|
      modifies `toClause, watchers[i]
      ensures Valid() && busy == (room && old(watchers[i].outSend) != [])
      ensures View() == if room then S.Apply(old(View()), S.Carry(S.WatcherToNetwork(i), 0)) else old(View())
    {
      hide View, S.Apply, WatcherUnit.Unit.View, ClauseUnit.Unit.View, ClauseWriter.Unit.View;
      ghost var before := View();
      ViewParts();
      WatcherQueues(i);
      WatcherToNetworkIs(before, i);
      busy := room && watchers[i].outSend != [];
      if busy {
        PopAside(watchers[i].View().q, WSend, WMem, watcherReads[i]);
        var req := watchers[i].PopSend();
        toClause := toClause + [req];
        ViewIs(S.Apply(before, S.Carry(S.WatcherToNetwork(i), 0)));
      }
    }

    // Packet j of the network has come out at watcher i. The clause unit that
    // gets it exists (Routing.DispatchInRange).
    method FromNetworkToClause(i: nat, j: nat) returns (ghost c: nat)
      requires Valid() && i < |watchers| && j < |toClause|
      modifies `toClause, `nextClause, clauses
      ensures Valid() && nextClause == Routing.NextClause(Shape(), old(nextClause))
      ensures c == Routing.DispatchIndex(i, nextClause) < |clauses|
      ensures View() == S.Apply(old(View()), S.Carry(S.NetworkToClause(c), j))
    {
      hide View, S.Apply, WatcherUnit.Unit.View, ClauseUnit.Unit.View, ClauseWriter.Unit.View;
      ghost var before := View();
      ViewParts();
      nextClause := (nextClause + 1) % (|clauses| / |watchers|);
      Routing.DispatchInRange(Shape(), i, nextClause);
      var id := i + nextClause;
      c := id;
      NetworkToClauseIs(before, c, j);
      PushAside(clauses[id].View().q, CTask, toClause[j], CMem, clauseReads[id]);
      clauses[id].PushToInTask(toClause[j]);
      toClause := toClause[..j] + toClause[j + 1..];
      ViewIs(S.Apply(before, S.Carry(S.NetworkToClause(c), j)));
    }

    method FromWatcherToMemory(i: nat, room: bool) returns (busy: bool)
      requires Valid() && i < |watchers|
      modifies `watcherReads, watchers[i]
      ensures Valid() && busy == (room && old(watchers[i].outMemoryRead) != [])
      ensures View() == if room then S.Apply(old(View()), S.Carry(S.WatcherToMemory(i), 0)) else old(View())
    {
      hide View, S.Apply, WatcherUnit.Unit.View, ClauseUnit.Unit.View, ClauseWriter.Unit.View;
      ghost var before := View();
      ViewParts();
      WatcherQueues(i);
      WatcherToMemoryIs(before, i);
      busy := room && watchers[i].outMemoryRead != [];
      if busy {
        PopAside(watchers[i].View().q, WOut, WMem, watcherReads[i]);
        var req := watchers[i].PopMemoryRead();
        watcherReads := watcherReads[i := watcherReads[i] + [req]];
        ViewIs(S.Apply(before, S.Carry(S.WatcherToMemory(i), 0)));
      }
    }

    // The memory answers read j of watcher i.
    method FromMemoryToWatcher(i: nat, j: nat)
      requires Valid() && i < |watchers| && j < |watcherReads[i]|
      modifies `watcherReads, watchers[i]
      ensures Valid() && View() == S.Apply(old(View()), S.Carry(S.MemoryToWatcher(i), j))
    {
      hide View, S.Apply, WatcherUnit.Unit.View, ClauseUnit.Unit.View, ClauseWriter.Unit.View;
      ghost var before := View();
      ViewParts();
      WatcherQueues(i);
      MemoryToWatcherIs(before, i, j);
      var req := watcherReads[i][j];
      var rest := watcherReads[i][..j] + watcherReads[i][j + 1..];
      PushAside(watchers[i].View().q, WResp, req, WMem, rest);
      watchers[i].PushResponse(req);
      watcherReads := watcherReads[i := rest];
      ViewIs(S.Apply(before, S.Carry(S.MemoryToWatcher(i), j)));
    }

    method FromClauseToMemory(i: nat, room: bool) returns (busy: bool)
      requires Valid() && i < |clauses|
      modifies `clauseReads, clauses[i]
      ensures Valid() && busy == (room && old(clauses[i].outMemoryRead) != [])
      ensures View() == if room then S.Apply(old(View()), S.Carry(S.ClauseToMemory(i), 0)) else old(View())
    {
      hide View, S.Apply, WatcherUnit.Unit.View, ClauseUnit.Unit.View, ClauseWriter.Unit.View;
      ghost var before := View();
      ViewParts();
      ClauseQueues(i);
      ClauseToMemoryIs(before, i);
      busy := room && clauses[i].outMemoryRead != [];
      if busy {
        PopAside(clauses[i].View().q, COut, CMem, clauseReads[i]);
        var req := clauses[i].PopFromOutMemoryRead();
        clauseReads := clauseReads[i := clauseReads[i] + [req]];
        ViewIs(S.Apply(before, S.Carry(S.ClauseToMemory(i), 0)));
      }
    }

    // The memory answers read j of clause unit i, which counts it as outstanding
    // in every run (Counters.RunCounts).
    method FromMemoryToClause(i: nat, j: nat)
      requires Valid() && i < |clauses| && j < |clauseReads[i]| && clauses[i].onGoing > 0
      modifies `clauseReads, clauses[i]
      ensures Valid() && View() == S.Apply(old(View()), S.Carry(S.MemoryToClause(i), j))
    {
      hide View, S.Apply, WatcherUnit.Unit.View, ClauseUnit.Unit.View, ClauseWriter.Unit.View;
      ghost var before := View();
      ViewParts();
      ClauseQueues(i);
      MemoryToClauseIs(before, i, j);
      var req := clauseReads[i][j];
      var rest := clauseReads[i][..j] + clauseReads[i][j + 1..];
      PushAside(clauses[i].View().q, CResp, req, CMem, rest);
      var ok := clauses[i].PushToInMemoryResp(req);
      clauseReads := clauseReads[i := rest];
      ViewIs(S.Apply(before, S.Carry(S.MemoryToClause(i), j)));
    }

    // A finished clause goes to the writer that has its unit in its share.
    method FromClauseToWriteUnit(i: nat) returns (busy: bool)
      requires Valid() && i < |clauses|
      requires clauses[i].outClauseWrite != [] ==> Routing.Group(Shape(), i) < |clauseWriters|
      modifies clauses[i], clauseWriters
      ensures Valid() && busy == (old(clauses[i].outClauseWrite) != [])
      ensures forall k: nat :: Routing.Serves(Shape(), k, i) ==>
        View() == S.Apply(old(View()), S.Carry(S.ClauseToWriter(i, k), 0))
    {
      hide View, S.Apply, WatcherUnit.Unit.View, ClauseUnit.Unit.View, ClauseWriter.Unit.View;
      ghost var before := View();
      ViewParts();
      ClauseQueues(i);
      var k := i / (|clauses| / |watchers|);
      forall k': nat | Routing.Serves(Shape(), k', i) ensures k' == k { Routing.GroupIs(Shape(), i, k'); }
      ClauseToWriterIs(before, i, k);
      busy := clauses[i].outClauseWrite != [];
      if busy {
        PopAside(clauses[i].View().q, CWrite, CMem, clauseReads[i]);
        var req := clauses[i].PopFromOutClauseWrite();
        clauseWriters[k].PushIn(req);
        ViewIs(S.Apply(before, S.Carry(S.ClauseToWriter(i, k), 0)));
      }
    }

    method FromClauseWriteUnitToCache(k: nat) returns (busy: bool)
      requires Valid() && k < |clauseWriters|
      modifies `clauseWrites, clauseWriters[k]
      ensures Valid() && busy == (old(clauseWriters[k].outQ) != [])
      ensures View() == S.Apply(old(View()), S.Carry(S.WriterToCache(k), 0))
      ensures clauseWrites == old(clauseWrites) + if busy then [old(clauseWriters[k].outQ)[0]] else []
    {
      hide View, S.Apply, WatcherUnit.Unit.View, ClauseUnit.Unit.View, ClauseWriter.Unit.View;
      ghost var before := View();
      ViewParts();
      WriterQueues(k);
      WriterToCacheIs(before, k);
      busy := clauseWriters[k].outQ != [];
      if busy {
        var req := clauseWriters[k].PopOut();
        clauseWrites := clauseWrites + [req];
        ViewIs(S.Apply(before, S.Carry(S.WriterToCache(k), 0)));
      }
    }

    // The cycles of the units.
    method CycleWatcher(i: nat) returns (busy: bool)
      requires Valid() && i < |watchers|
      modifies watchers[i]
      ensures Valid()
      ensures View() == S.Run(old(View()), Cycles.WatcherActs(i, Cycles.WATCHER_STAGES))
    {
      hide View, S.Run, Cycles.WatcherActs, WatcherUnit.Unit.View, ClauseUnit.Unit.View, ClauseWriter.Unit.View;
      hide WatcherUnit.Watcher.Cycle;
      ghost var before := View();
      ViewParts();
      Cycles.WatcherCycleRuns(before, i);
      Cycles.WatcherCycleAside(watchers[i].View(), watcherReads[i]);
      busy := watchers[i].DoCycle();
      ViewIs(S.Run(before, Cycles.WatcherActs(i, Cycles.WATCHER_STAGES)));
    }

    method CycleClause(i: nat) returns (busy: bool)
      requires Valid() && i < |clauses|
      modifies clauses[i]
      ensures Valid()
      ensures View() == S.Run(old(View()), Cycles.ClauseActs(i, Cycles.CLAUSE_STAGES))
    {
      hide View, S.Run, Cycles.ClauseActs, WatcherUnit.Unit.View, ClauseUnit.Unit.View, ClauseWriter.Unit.View;
      hide ClauseUnit.Clause.Cycle;
      ghost var before := View();
      ViewParts();
      Cycles.ClauseCycleRuns(before, i);
      Cycles.ClauseCycleAside(clauses[i].View(), clauseReads[i]);
      busy := clauses[i].DoCycle();
      ViewIs(S.Run(before, Cycles.ClauseActs(i, Cycles.CLAUSE_STAGES)));
    }

    // The writer asserts that the finished clause stands at its last literal,
    // as it does in every run without empty clauses (Asserts.AssertsHold).
    method CycleWriter(k: nat) returns (busy: bool)
      requires Valid() && k < |clauseWriters|
      requires var q := clauseWriters[k].inQ;
               q != [] ==> q[0].w < Size(q[0].a) && q[0].c + 1 == Literals(q[0].a, q[0].w)
      modifies clauseWriters[k]
      ensures Valid() && View() == S.Apply(old(View()), S.WriterStage(k))
    {
      hide View, WatcherUnit.Unit.View, ClauseUnit.Unit.View;
      ghost var before := View();
      ViewParts();
      assert before.ks[k := before.ks[k]] == before.ks;
      busy := clauseWriters[k].DoCycle();
      ViewIs(S.Apply(before, S.WriterStage(k)));
    }

    lemma WriterQueues(k: nat)
      requires Valid() && k < |clauseWriters|
      ensures Get(clauseWriters[k].View(), KOut) == clauseWriters[k].outQ
    {
    }
  }

  lemma FrontDrop(q: Queues, p: Place)
    requires Get(q, p) != []
    ensures Drop(q, p, 0) == Pop(q, p)
  {
    assert Get(q, p)[..0] + Get(q, p)[1..] == Get(q, p)[1..];
  }

  lemma TrailToWatcherIs(s: S.System, w: nat)
    requires w < |s.ws|
    ensures S.Apply(s, S.Carry(S.TrailToWatcher(w), 0))
         == if Get(s.top, Trail) == [] || |Get(s.ws[w].q, WTask)| >= S.IN_SIZE then s
            else s.(top := Pop(s.top, Trail),
                    ws := s.ws[w := s.ws[w].(q := Push(s.ws[w].q, WTask, Get(s.top, Trail)[0]))])
  {
    if Get(s.top, Trail) != [] { FrontDrop(s.top, Trail); }
  }

  lemma ClauseToTrailIs(s: S.System, c: nat)
    requires c < |s.cs|
    ensures S.Apply(s, S.Carry(S.ClauseToTrail(c), 0))
         == if Get(s.cs[c].q, CGen) == [] then s
            else s.(top := Push(s.top, Trail, Get(s.cs[c].q, CGen)[0]),
                    cs := s.cs[c := s.cs[c].(q := Pop(s.cs[c].q, CGen))])
  {
    if Get(s.cs[c].q, CGen) != [] { FrontDrop(s.cs[c].q, CGen); }
  }

  lemma WatcherToListWriterIs(s: S.System, w: nat)
    requires w < |s.ws|
    ensures S.Apply(s, S.Carry(S.WatcherToListWriter(w), 0))
         == if Get(s.ws[w].q, WList) == [] then s else s.(ws := s.ws[w := s.ws[w].(q := Pop(s.ws[w].q, WList))])
  {
    if Get(s.ws[w].q, WList) != [] { FrontDrop(s.ws[w].q, WList); }
  }

  lemma WatcherToNetworkIs(s: S.System, w: nat)
    requires w < |s.ws|
    ensures S.Apply(s, S.Carry(S.WatcherToNetwork(w), 0))
         == if Get(s.ws[w].q, WSend) == [] then s
            else s.(top := Push(s.top, CNet, Get(s.ws[w].q, WSend)[0]),
                    ws := s.ws[w := s.ws[w].(q := Pop(s.ws[w].q, WSend))])
  {
    if Get(s.ws[w].q, WSend) != [] { FrontDrop(s.ws[w].q, WSend); }
  }

  lemma NetworkToClauseIs(s: S.System, c: nat, j: nat)
    requires c < |s.cs| && j < |Get(s.top, CNet)|
    ensures S.Apply(s, S.Carry(S.NetworkToClause(c), j))
         == s.(top := Drop(s.top, CNet, j), cs := s.cs[c := s.cs[c].(q := Push(s.cs[c].q, CTask, Get(s.top, CNet)[j]))])
  {
  }

  lemma WatcherToMemoryIs(s: S.System, w: nat)
    requires w < |s.ws|
    ensures S.Apply(s, S.Carry(S.WatcherToMemory(w), 0))
         == if Get(s.ws[w].q, WOut) == [] then s
            else s.(ws := s.ws[w := s.ws[w].(q := Push(Pop(s.ws[w].q, WOut), WMem, Get(s.ws[w].q, WOut)[0]))])
  {
    if Get(s.ws[w].q, WOut) != [] { FrontDrop(s.ws[w].q, WOut); }
  }

  lemma MemoryToWatcherIs(s: S.System, w: nat, j: nat)
    requires w < |s.ws| && j < |Get(s.ws[w].q, WMem)|
    ensures S.Apply(s, S.Carry(S.MemoryToWatcher(w), j))
         == s.(ws := s.ws[w := s.ws[w].(q := Push(Drop(s.ws[w].q, WMem, j), WResp, Get(s.ws[w].q, WMem)[j]))])
  {
  }

  lemma ClauseToMemoryIs(s: S.System, c: nat)
    requires c < |s.cs|
    ensures S.Apply(s, S.Carry(S.ClauseToMemory(c), 0))
         == if Get(s.cs[c].q, COut) == [] then s
            else s.(cs := s.cs[c := s.cs[c].(q := Push(Pop(s.cs[c].q, COut), CMem, Get(s.cs[c].q, COut)[0]),
                                             ongoing := s.cs[c].ongoing + 1)])
  {
    if Get(s.cs[c].q, COut) != [] { FrontDrop(s.cs[c].q, COut); }
  }

  lemma MemoryToClauseIs(s: S.System, c: nat, j: nat)
    requires c < |s.cs| && j < |Get(s.cs[c].q, CMem)|
    ensures S.Apply(s, S.Carry(S.MemoryToClause(c), j))
         == s.(cs := s.cs[c := s.cs[c].(q := Push(Drop(s.cs[c].q, CMem, j), CResp, Get(s.cs[c].q, CMem)[j]),
                                        ongoing := s.cs[c].ongoing - 1)])
  {
  }

  lemma ClauseToWriterIs(s: S.System, c: nat, k: nat)
    requires c < |s.cs| && (Get(s.cs[c].q, CWrite) != [] ==> k < |s.ks|)
    ensures S.Apply(s, S.Carry(S.ClauseToWriter(c, k), 0))
         == if Get(s.cs[c].q, CWrite) == [] then s
            else s.(cs := s.cs[c := s.cs[c].(q := Pop(s.cs[c].q, CWrite))],
                    ks := s.ks[k := Push(s.ks[k], KIn, Get(s.cs[c].q, CWrite)[0])])
  {
    if Get(s.cs[c].q, CWrite) != [] { FrontDrop(s.cs[c].q, CWrite); }
  }

  lemma WriterToCacheIs(s: S.System, k: nat)
    requires k < |s.ks|
    ensures S.Apply(s, S.Carry(S.WriterToCache(k), 0))
         == if Get(s.ks[k], KOut) == [] then s else s.(ks := s.ks[k := Pop(s.ks[k], KOut)])
  {
    if Get(s.ks[k], KOut) != [] { FrontDrop(s.ks[k], KOut); }
  }
}
