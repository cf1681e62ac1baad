// src/watcher.cc: a watcher turns one assignment into one read of the list's
// metadata, reads of the list in chunks of 16, one value read and one list
// write per watcher, and a task for every clause that must be read.
module Watcher {
  import opened Forest
  import opened Queues
  import opened Tokens

  // The queues and counters of a watcher. `thrown` records that a response of
  // a type that no watcher asks for was met.
  datatype State = State(q: Queues, inflight: int, outData: int, outValue: int, thrown: bool)

  datatype Stage = MetaToMem | ValueToMem | ProcessToOut | ReadToMem | InToRead | RespToInside

  // The queue each stage reads from.
  function Source(s: Stage): Place
  {
    match s
    case MetaToMem => WMeta
    case ValueToMem => WValue
    case ProcessToOut => WProc
    case ReadToMem => WRead
    case InToRead => WTask
    case RespToInside => WResp
  }

  // What each stage does with the request r at the front of its queue. In
  // RespToInside the chunk with the highest index counts as the last one,
  // whenever it comes; in ReadToMem a list of size zero leaves nothing.
  function Puts(s: Stage, r: Req): seq<Put>
  {
    var n := Size(r.a);
    match s
    case MetaToMem => [Back(WOut, r.(kind := ReadWatcherMetaData, w := 0))]
    case ValueToMem =>
      Issue(Back(WOut, r.(kind := ReadWatcherValue)), r.w + 1 >= n, WValue, r.(w := r.w + 1))
    case ProcessToOut =>
      if ReadsClause(r.a, r.w)
      then [Back(WList, r)]
           + Issue(Back(WSend, r.(c := 0)), r.w + 1 >= n, WProc, r.(w := r.w + 1))
      else Issue(Back(WList, r), r.w + 1 >= n, WProc, r.(w := r.w + 1))
    case ReadToMem =>
      if r.w >= n then []
      else Issue(Back(WOut, r.(kind := ReadWatcherData)), r.w + CHUNK >= n, WRead, r.(w := r.w + CHUNK))
    case InToRead => [Back(WMeta, r.(kind := ReadWatcherMetaData))]
    case RespToInside =>
      if r.kind.ReadWatcherData? then
        (if r.w + CHUNK >= n then [Back(WValue, r.(w := 0))] else [])
      else if r.kind.ReadWatcherValue? then
        (if r.w + 1 >= n then [Back(WProc, r.(w := 0))] else [])
      else [Back(WRead, r.(kind := ReadWatcherData, w := 0))]
  }

  // How each counter moves.
  function Started(s: Stage, r: Req): int
  {
    if s.InToRead? then 1
    else if s.ProcessToOut? && r.w + 1 >= Size(r.a) then -1
    else if s.ReadToMem? && r.w >= Size(r.a) then -1
    else 0
  }

  function DataIssued(s: Stage, r: Req): int
  {
    if s.ReadToMem? && r.w < Size(r.a) then 1
    else if s.RespToInside? && r.kind.ReadWatcherData? then -1
    else 0
  }

  function ValueIssued(s: Stage, r: Req): int
  {
    if s.ValueToMem? then 1
    else if s.RespToInside? && r.kind.ReadWatcherValue? then -1
    else 0
  }

  function Fresh(): Queues {
    map[WTask := [], WMeta := [], WRead := [], WValue := [], WProc := [],
        WOut := [], WResp := [], WSend := [], WList := []]
  }

  // A stage whose queue is empty does nothing.
  function Step(s: Stage, u: State): State
  {
    if Get(u.q, Source(s)) == [] then u
    else
      var r := Get(u.q, Source(s))[0];
      if s.RespToInside? && !WatcherRead(r.kind) then u.(thrown := true)
      else State(PutAll(Pop(u.q, Source(s)), Puts(s, r)),
                 u.inflight + Started(s, r),
                 u.outData + DataIssued(s, r),
                 u.outValue + ValueIssued(s, r),
                 u.thrown)
  }

  // One do_cycle: the six stages in their order.
  function Cycle(u: State): State {
    Step(RespToInside, Step(InToRead, Step(ReadToMem, Step(ProcessToOut, Step(ValueToMem, Step(MetaToMem, u))))))
  }

  lemma PutsAreSucc(s: Stage, r: Req)
    requires s.RespToInside? ==> WatcherRead(r.kind)
    ensures |Puts(s, r)| <= 3 && PutToks(Puts(s, r)) == Succ(Tok(Source(s), r))
  {
  }

  // A stage fires the token it takes: the tokens of the unit change by exactly
  // what Succ says.
  lemma StageFires(s: Stage, u: State)
    requires Get(u.q, Source(s)) != []
    requires s.RespToInside? ==> WatcherRead(Get(u.q, WResp)[0].kind)
    ensures var t := Tok(Source(s), Get(u.q, Source(s))[0]);
            Fires(Held(u.q), t, Succ(t), Held(Step(s, u).q))
  {
    hide Fires, Succ, Puts, PutToks, PutAll;
    var r := Get(u.q, Source(s))[0];
    PutsAreSucc(s, r);
    TakeFires(u.q, Source(s), Puts(s, r));
  }
}
