// Which list a write goes to, read off the entry of its watcher: the list that
// the watcher is pushed to, or that of its own assignment. Over every run the
// writes of a list writer keep the lists of its requests apart.
module ListNames {
  import opened Forest
  import opened ListWriter
  import opened Merging
  import opened Tokens
  import Dispatch
  import N = SideNetworks

  // r writes list v.
  ghost predicate Writes(r: Req, v: int) {
    && r.w < |r.a.watchers|
    && match r.a.watchers[r.w].pushed
       case Some(list) => v == list
       case None => v == r.a.value
  }

  predicate HasWatcher(r: Req) { r.w < |r.a.watchers| }

  lemma KeyIsList(r: Req, v: int)
    requires HasWatcher(r)
    ensures Writes(r, v) <==> v == Key(r)
  {
  }

  predicate AllHaveWatchers(es: seq<Event>) { forall i :: 0 <= i < |es| && es[i].Arrive? ==> HasWatcher(es[i].r) }

  // A list write, as a writer takes it.
  predicate IsListWrite(r: Req) { HasWatcher(r) && r.kind.WriteWatcherList? }

  ghost predicate Proper(u: State, b: Book) {
    && (forall i :: 0 <= i < |u.input| ==> HasWatcher(u.input[i]))
    && (forall k :: k in u.reqs ==> IsListWrite(u.reqs[k]))
    && (forall j :: 0 <= j < |b.sent| ==> IsListWrite(b.sent[j].r))
  }

  lemma AcceptProper(g: Limits, u: State, b: Book, r: Req)
    requires Linked(u, b) && Proper(u, b) && IsListWrite(r)
    ensures Proper(Accept(g, u, r), AcceptNote(g, u, b, r))
  {
    hide Key, Settle, Live, HasWatcher;
    LiveSuffix(u.aging, u.reqs);
  }

  lemma {:induction false} CloseAllProper(reqs: map<int, Req>, b: Book)
    requires |b.owner| == |b.taken|
    requires forall k :: k in reqs ==> IsListWrite(reqs[k])
    requires forall j :: 0 <= j < |b.sent| ==> IsListWrite(b.sent[j].r)
    ensures forall j :: 0 <= j < |CloseAll(reqs, b).sent| ==> IsListWrite(CloseAll(reqs, b).sent[j].r)
    decreases |reqs|
  {
    hide Settle, IsListWrite;
    if reqs != map[] {
      assert reqs.Keys != {};
      var k := Least(reqs.Keys);
      SettleKeeps(b.taken, b.owner, k, |b.sent|);
      CloseAllProper(reqs - {k}, Close(b, k, reqs[k]));
    }
  }

  lemma NextProper(g: Limits, u: State, b: Book, e: Event)
    requires Linked(u, b) && Proper(u, b) && (e.Arrive? ==> HasWatcher(e.r))
    ensures Proper(Next(g, u, e), Note(g, u, b, e))
  {
    hide Accept, AcceptNote, CloseAll, InOrder, Live;
    match e
    case Arrive(r) =>
    case Cycle =>
      if u.input != [] && Size(u.input[0].a) != 0 {
        var r, u' := u.input[0].(kind := WriteWatcherList), u.(input := u.input[1..]);
        assert HasWatcher(u.input[0]);
        AcceptProper(g, u', b, r);
      }
    case Leave =>
    case FlushAll => CloseAllProper(u.reqs, b);
  }

  lemma {:induction false} RunProper(g: Limits, es: seq<Event>)
    requires AllHaveWatchers(es)
    ensures Proper(Run(g, es), Books(g, es))
    decreases |es|
  {
    hide Next, Note, Proper, HasWatcher;
    if es == [] {
      NothingProper();
    } else {
      var before := es[..|es| - 1];
      RunProper(g, before);
      NextProper(g, Run(g, before), Books(g, before), es[|es| - 1]);
    }
  }

  lemma NothingProper()
    ensures Proper(Fresh(), NOTHING)
  {
  }

  lemma Watched(es: seq<Event>)
    requires AllHaveWatchers(es)
    ensures Sized(es)
  {
    forall i | 0 <= i < |es| && es[i].Arrive? ensures Size(es[i].r.a) > 0 {
      assert HasWatcher(es[i].r);
    }
  }

  lemma {:induction false} ArrivalsWatched(es: seq<Event>)
    requires AllHaveWatchers(es)
    ensures forall i :: 0 <= i < |Arrivals(es)| ==> HasWatcher(Arrivals(es)[i])
    decreases |es|
  {
    hide HasWatcher;
    if es != [] { ArrivalsWatched(es[..|es| - 1]); }
  }

  // What every run says of request i, by the lists that the entries name.
  ghost predicate RightList(u: State, b: Book, r: Req, i: nat)
    requires i < |b.owner|
  {
    forall v :: Writes(r, v) ==>
      match b.owner[i]
      case Waiting => v in u.reqs && Writes(u.reqs[v], v)
      case Written(j) => j < |b.sent| && Writes(b.sent[j].r, v) && i < b.sent[j].at
  }

  // Over every run, each request taken waits in the entry of the list that it
  // writes, or is covered by a later write to that list; and whatever is sent is
  // a list write.
  lemma ToItsList(g: Limits, es: seq<Event>, i: nat)
    requires Sensible(g) && AllHaveWatchers(es) && i < |Books(g, es).taken|
    ensures i < |Arrivals(es)| && i < |Books(g, es).owner|
    ensures RightList(Run(g, es), Books(g, es), Arrivals(es)[i], i)
    ensures forall j :: 0 <= j < |Books(g, es).sent| ==> Books(g, es).sent[j].r.kind == WriteWatcherList
  {
    hide Run, Books, Writes, HasWatcher, WaitingFor, CoveredBy, Key, Summed, Aged, Sending, Arrivals;
    Watched(es);
    RunKeeps(g, es);
    RunProper(g, es);
    ArrivalsWatched(es);
    var u, b, r := Run(g, es), Books(g, es), Arrivals(es)[i];
    forall v | Writes(r, v)
      ensures match b.owner[i]
              case Waiting => v in u.reqs && Writes(u.reqs[v], v)
              case Written(j) => j < |b.sent| && Writes(b.sent[j].r, v) && i < b.sent[j].at
    {
      KeyIsList(r, v);
      if b.owner[i].Waiting? { KeyIsList(u.reqs[v], v); } else { KeyIsList(b.sent[b.owner[i].j].r, v); }
    }
  }

  // Once flushed, every request taken is covered by a later write to the list
  // that its entry names: the list its watcher is pushed to, or its own.
  lemma FlushedToItsList(g: Limits, es: seq<Event>, i: nat, v: int)
    requires Sensible(g) && AllHaveWatchers(es) && i < |Books(g, es).taken|
    requires i < |Arrivals(es)| && Writes(Arrivals(es)[i], v)
    ensures exists s :: s in Books(g, es + [FlushAll]).sent && Writes(s.r, v) && i < s.at
  {
    hide Run, Books, Writes, HasWatcher, Covered, Counted, Summed, Aged, Sending, CloseAll;
    var es' := es + [FlushAll];
    assert es'[..|es|] == es && Arrivals(es) + [] == Arrivals(es);
    assert Arrivals(es') == Arrivals(es);
    Watched(es);
    FlushWritesThrough(g, es);
    ToItsList(g, es', i);
    LastEvent(g, es);
    RunKeeps(g, es');
    var b := Books(g, es');
    assert Run(g, es').reqs == map[];
    assert b.owner[i].Written?;
    assert b.sent[b.owner[i].j] in b.sent;
  }

  // Requests for different lists never share a write.
  lemma ListsApart(g: Limits, es: seq<Event>, i: nat, i': nat, v: int, v': int)
    requires Sensible(g) && AllHaveWatchers(es)
    requires i < |Books(g, es).taken| && i' < |Books(g, es).taken|
    requires i < |Arrivals(es)| && i' < |Arrivals(es)|
    requires Writes(Arrivals(es)[i], v) && Writes(Arrivals(es)[i'], v')
    requires i < |Books(g, es).owner| && i' < |Books(g, es).owner|
    requires Books(g, es).owner[i].Written? && Books(g, es).owner[i] == Books(g, es).owner[i']
    ensures v == v'
  {
    hide Run, Books, Arrivals, HasWatcher;
    ToItsList(g, es, i);
    ToItsList(g, es, i');
  }

  // The write that watcher `src` hands over for the request r, as the network
  // between watchers and writers sees it.
  function CargoOf(src: nat, r: Req): N.Cargo
    requires HasWatcher(r)
  {
    N.ListWrite(src, r.a.watchers[r.w].pushed)
  }

  predicate Pushed(r: Req)
    requires HasWatcher(r)
  {
    r.a.watchers[r.w].pushed.Some?
  }

  // A pushed write arrives at the writer whose number is the list it writes
  // modulo the watchers; one that is not stays with its watcher.
  lemma ArrivesAtWriter(mode: N.Mode, nW: nat, acts: seq<N.Action>, y: N.Parcel, r: Req, v: int)
    requires nW > 0 && y in N.Run(mode, nW, acts) && y.at.Arrived?
    requires HasWatcher(r) && y.x == CargoOf(y.x.src, r) && Writes(r, v)
    ensures y.at.n == if Pushed(r) then v % 0x1_0000_0000 % nW else y.x.src
  {
    hide N.Run;
    N.EachArrives(mode, nW, acts, y);
  }

  // So pushed writes of one list meet at one writer, and merge there.
  lemma PushedMeet(mode: N.Mode, nW: nat, acts: seq<N.Action>, y: N.Parcel, y': N.Parcel, r: Req, r': Req)
    requires nW > 0 && y in N.Run(mode, nW, acts) && y' in N.Run(mode, nW, acts) && y.at.Arrived? && y'.at.Arrived?
    requires HasWatcher(r) && HasWatcher(r') && y.x == CargoOf(y.x.src, r) && y'.x == CargoOf(y'.x.src, r')
    requires Pushed(r) && Pushed(r') && Key(r) == Key(r')
    ensures y.at == y'.at
  {
    hide N.Run;
    KeyIsList(r, Key(r));
    KeyIsList(r', Key(r'));
    ArrivesAtWriter(mode, nW, acts, y, r, Key(r));
    ArrivesAtWriter(mode, nW, acts, y', r', Key(r'));
  }

  // A write of list v that is not pushed is made by the watcher that the
  // assignment v was dealt to. It meets the pushed ones exactly if halving the
  // list does not change the watcher.
  lemma LocalMeetsPushedIff(v: nat, nW: nat)
    requires nW > 0 && v < 0x8000_0000
    ensures Dispatch.WatcherFor(v, nW, false) == N.Target(N.Icnt, nW, N.ListWrite(0, Some(v)))
       <==> v / 2 % nW == v % nW
  {
    hide Dispatch.WatcherFor;
    var q := v / 2;
    Dispatch.OfVariable(q, nW);
    assert v == 2 * q || v == 2 * q + 1;
    assert v % 0x1_0000_0000 == v;
  }

  // With two watchers the writes of list 2 are merged at two writers.
  lemma TwoWriters()
    ensures Dispatch.WatcherFor(2, 2, false) == 1
    ensures var r := Req(ReadWatcherValue, Assign(5, [Entry(false, 0, false, Null, Some(2))]), 0, 0);
            N.Target(N.Icnt, 2, CargoOf(0, r)) == 0
  {
    Dispatch.OfVariable(1, 2);
  }
}
