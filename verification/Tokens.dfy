// Every entry of every queue of the accelerator is a token. A pipeline stage
// takes one token and leaves the tokens Succ says; memory may hand tokens back
// in any order. Expand is everything a token will ever cause.
module Tokens {
  import opened Forest
  import opened Bags

  datatype AccessType =
    | ReadWatcherMetaData | ReadWatcherData | ReadWatcherValue
    | ReadClauseData | ReadClauseValue
    | WriteWatcherList | WriteClause

  // A cache_interface_req: its type, its assignment and its two cursors.
  datatype Req = Req(kind: AccessType, a: Assign, w: nat, c: nat)

  // Where a token can be. W is a watcher, C a clause unit, K a clause writer;
  // Out, Mem and Resp are the read queue of a unit, the memory system outside
  // it, and its response queue.
  datatype Place =
    | Trail
    | WTask | WMeta | WOut | WMem | WResp | WRead | WValue | WProc | WList | WSend
    | CNet
    | CTask | CData | COut | CMem | CResp | CValue | CProc | CGen | CWrite
    | KIn | KOut

  datatype Token = Token(p: Place, kind: AccessType, a: Assign, w: nat, c: nat)

  const CHUNK: nat := 16

  predicate CarriesRead(p: Place) { p.WOut? || p.WMem? || p.WResp? || p.COut? || p.CMem? || p.CResp? }

  // The fields of a request that matter at each place.
  predicate UsesWatcher(p: Place) { !p.Trail? && !p.WTask? && !p.WMeta? && !p.CGen? }
  predicate UsesLiteral(p: Place) {
    || p.CData? || p.COut? || p.CMem? || p.CResp? || p.CValue? || p.CProc?
    || p.CWrite? || p.KIn? || p.KOut?
  }

  function Tok(p: Place, r: Req): Token {
    Token(p,
          if CarriesRead(p) then r.kind else ReadWatcherMetaData,
          r.a,
          if UsesWatcher(p) then r.w else 0,
          if UsesLiteral(p) then r.c else 0)
  }

  function At(p: Place, a: Assign, w: nat, c: nat): Token { Token(p, ReadWatcherMetaData, a, w, c) }

  predicate InWatcher(p: Place) {
    || p.WTask? || p.WMeta? || p.WOut? || p.WMem? || p.WResp?
    || p.WRead? || p.WValue? || p.WProc? || p.WList? || p.WSend?
  }

  // x first, then y if it is due.
  function Then(x: Token, due: bool, y: Token): seq<Token> { if due then [x, y] else [x] }

  // What firing a token leaves behind, in a watcher.
  function WatcherSucc(t: Token): seq<Token>
    requires InWatcher(t.p)
  {
    var n := Size(t.a);
    match t.p
    case WTask => [At(WMeta, t.a, 0, 0)]
    case WMeta => [Token(WOut, ReadWatcherMetaData, t.a, 0, 0)]
    case WOut => [t.(p := WMem)]
    case WMem => [t.(p := WResp)]
    case WResp =>
      if t.kind.ReadWatcherMetaData? then [At(WRead, t.a, 0, 0)]
      else if t.kind.ReadWatcherData? && t.w + CHUNK >= n then [At(WValue, t.a, 0, 0)]
      else if t.kind.ReadWatcherValue? && t.w + 1 >= n then [At(WProc, t.a, 0, 0)]
      else []
    case WRead =>
      if t.w >= n then []
      else Then(Token(WOut, ReadWatcherData, t.a, t.w, 0),
                t.w + CHUNK < n, At(WRead, t.a, t.w + CHUNK, 0))
    case WValue =>
      Then(Token(WOut, ReadWatcherValue, t.a, t.w, 0),
           t.w + 1 < n, At(WValue, t.a, t.w + 1, 0))
    case WProc =>
      if ReadsClause(t.a, t.w)
      then [At(WList, t.a, t.w, 0)]
           + Then(At(WSend, t.a, t.w, 0), t.w + 1 < n, At(WProc, t.a, t.w + 1, 0))
      else Then(At(WList, t.a, t.w, 0), t.w + 1 < n, At(WProc, t.a, t.w + 1, 0))
    case WList => []
    case WSend => [At(CNet, t.a, t.w, 0)]
  }

  // The same on the clause side, in the clause writers and on the trail.
  function ClauseSucc(t: Token): seq<Token>
    requires !InWatcher(t.p)
  {
    var m := Literals(t.a, t.w);
    match t.p
    case Trail => [At(WTask, t.a, 0, 0)]
    case CNet => [At(CTask, t.a, t.w, 0)]
    case CTask => [At(CData, t.a, t.w, 0)]
    case CData =>
      Then(Token(COut, ReadClauseData, t.a, t.w, t.c),
           t.c + CHUNK < m, At(CData, t.a, t.w, t.c + CHUNK))
    case COut => [t.(p := CMem)]
    case CMem => [t.(p := CResp)]
    case CResp =>
      if t.kind.ReadClauseData? then
        (if t.c + CHUNK >= m then [At(CValue, t.a, t.w, 0)] else [])
      else (if t.c + 1 >= m then [At(CProc, t.a, t.w, 0)] else [])
    case CValue =>
      Then(Token(COut, ReadClauseValue, t.a, t.w, t.c),
           t.c + 1 < m, At(CValue, t.a, t.w, t.c + 1))
    case CProc =>
      if t.c + 1 < m then [At(CProc, t.a, t.w, t.c + 1)]
      else if Child(t.a, t.w).Implies?
      then [At(CGen, Child(t.a, t.w).child, 0, 0), At(CWrite, t.a, t.w, t.c)]
      else [At(CWrite, t.a, t.w, t.c)]
    case CGen => [At(Trail, t.a, 0, 0)]
    case CWrite => [At(KIn, t.a, t.w, t.c)]
    case KIn => Then(At(KOut, t.a, t.w, t.c), m > CHUNK, At(KOut, t.a, t.w, t.c))
    case KOut => []
  }

  function Succ(t: Token): seq<Token> {
    if InWatcher(t.p) then WatcherSucc(t) else ClauseSucc(t)
  }

  // A rank that falls along Succ: height of the forest, place, cursor.
  ghost function Order(t: Token): nat
  {
    match t.p
    case CGen => 31
    case Trail => 30
    case WTask => 29
    case WMeta => 28
    case WOut => if t.kind.ReadWatcherMetaData? then 27 else if t.kind.ReadWatcherData? then 23 else 19
    case WMem => if t.kind.ReadWatcherMetaData? then 26 else if t.kind.ReadWatcherData? then 22 else 18
    case WResp => if t.kind.ReadWatcherMetaData? then 25 else if t.kind.ReadWatcherData? then 21 else 17
    case WRead => 24
    case WValue => 20
    case WProc => 16
    case WSend => 15
    case CNet => 14
    case CTask => 13
    case CData => 12
    case COut => if t.kind.ReadClauseData? then 11 else 7
    case CMem => if t.kind.ReadClauseData? then 10 else 6
    case CResp => if t.kind.ReadClauseData? then 9 else 5
    case CValue => 8
    case CProc => 4
    case CWrite => 3
    case KIn => 2
    case KOut => 1
    case WList => 0
  }

  ghost function Left(t: Token): nat
  {
    var n, m := Size(t.a), Literals(t.a, t.w);
    if t.p.WRead? || t.p.WValue? || t.p.WProc? then (if t.w < n then n - t.w else 0)
    else if t.p.CData? || t.p.CValue? || t.p.CProc? then (if t.c < m then m - t.c else 0)
    else 0
  }

  ghost predicate Below(s: Token, t: Token)
  {
    || Height(s.a) < Height(t.a)
    || (Height(s.a) == Height(t.a) && Order(s) < Order(t))
    || (Height(s.a) == Height(t.a) && Order(s) == Order(t) && Left(s) < Left(t))
  }

  ghost predicate AllBelow(s: seq<Token>, t: Token)
  {
    && |s| <= 3
    && (|s| > 0 ==> Below(s[0], t))
    && (|s| > 1 ==> Below(s[1], t))
    && (|s| > 2 ==> Below(s[2], t))
  }

  lemma WatcherSuccFalls(t: Token)
    requires InWatcher(t.p)
    ensures AllBelow(WatcherSucc(t), t)
  {
  }

  lemma ClauseSuccFalls(t: Token)
    requires !InWatcher(t.p)
    ensures AllBelow(ClauseSucc(t), t)
  {
    hide Height;
    if t.p.CProc? {
      if Child(t.a, t.w).Implies? { ChildLower(t.a, t.w); }
    } else if t.p.CResp? {
    } else {
    }
  }

  lemma SuccFalls(t: Token)
    ensures AllBelow(Succ(t), t)
  {
    if InWatcher(t.p) { WatcherSuccFalls(t); } else { ClauseSuccFalls(t); }
  }

  // Every firing that t will ever cause, its own included.
  ghost function Expand(t: Token): multiset<Token>
    decreases Height(t.a), Order(t), Left(t)
  {
    SuccFalls(t);
    var s := Succ(t);
    multiset{t} +
    if |s| == 0 then multiset{}
    else if |s| == 1 then Expand(s[0])
    else if |s| == 2 then Expand(s[0]) + Expand(s[1])
    else Expand(s[0]) + Expand(s[1]) + Expand(s[2])
  }

  // Everything that a bag of tokens will cause.
  ghost function ExpandAll(m: multiset<Token>): multiset<Token> { Gather(Expand, m) }

  lemma ExpandSucc(t: Token)
    ensures Expand(t) == multiset{t} + ExpandAll(multiset(Succ(t)))
  {
    hide Succ, Below;
    SuccFalls(t);
    var s := Succ(t);
    if |s| == 1 {
      assert s == [s[0]];
      GatherOne(Expand, s[0]);
    } else if |s| == 2 {
      assert s == [s[0], s[1]];
      GatherTwo(Expand, s[0], s[1]);
    } else if |s| == 3 {
      assert s == [s[0], s[1], s[2]];
      GatherThree(Expand, s[0], s[1], s[2]);
    }
  }

  lemma ExpandOne(t: Token, x: Token)
    requires Succ(t) == [x]
    ensures Expand(t) == multiset{t} + Expand(x)
  {
    hide Expand, Succ;
    ExpandSucc(t);
    GatherOne(Expand, x);
  }

  lemma ExpandTwo(t: Token, x: Token, y: Token)
    requires Succ(t) == [x, y]
    ensures Expand(t) == multiset{t} + (Expand(x) + Expand(y))
  {
    hide Expand, Succ;
    ExpandSucc(t);
    GatherTwo(Expand, x, y);
  }

  // A read on its way out, inside the memory, and answered.
  function Inside(x: Token): Token { x.(p := if x.p.WOut? then WMem else CMem) }
  function Answered(x: Token): Token { x.(p := if x.p.WOut? then WResp else CResp) }

  lemma ReadSucc(x: Token)
    requires x.p.WOut? || x.p.COut?
    ensures Succ(x) == [Inside(x)] && Succ(Inside(x)) == [Answered(x)]
  {
  }

  lemma ReadHops(x: Token)
    requires x.p.WOut? || x.p.COut?
    ensures Expand(x) == multiset{x, Inside(x)} + Expand(Answered(x))
  {
    hide Expand, Succ, Inside, Answered;
    ReadSucc(x);
    ExpandOne(x, Inside(x));
    ExpandOne(Inside(x), Answered(x));
  }

  // Replacing a token by `made` changes the outstanding work by exactly the
  // difference of the two expansions.
  lemma Replace(m: multiset<Token>, t: Token, made: multiset<Token>)
    requires t in m
    ensures ExpandAll(m - multiset{t} + made) + Expand(t) == ExpandAll(m) + ExpandAll(made)
  {
    GatherPick(Expand, m, t);
    GatherUnion(Expand, m - multiset{t}, made);
  }

  predicate WatcherRead(k: AccessType) {
    k.ReadWatcherMetaData? || k.ReadWatcherData? || k.ReadWatcherValue?
  }

  // A cursor into something of size n: inside it, or at its start.
  predicate Within(c: nat, n: nat) { c < n || c == 0 }

  // The tokens that a run can meet.
  predicate WellFormed(t: Token)
  {
    var n, m := Size(t.a), Literals(t.a, t.w);
    match t.p
    case Trail => true
    case WTask => true
    case WMeta => true
    case CGen => true
    case WOut => WatcherRead(t.kind) && (t.kind.ReadWatcherMetaData? || t.w < n)
    case WMem => WatcherRead(t.kind) && (t.kind.ReadWatcherMetaData? || t.w < n)
    case WResp => WatcherRead(t.kind) && (t.kind.ReadWatcherMetaData? || t.w < n)
    case WRead => Within(t.w, n)
    case WValue => t.w < n
    case WProc => t.w < n
    case WList => t.w < n
    case WSend => ReadsClause(t.a, t.w)
    case CNet => ReadsClause(t.a, t.w)
    case CTask => ReadsClause(t.a, t.w)
    case CData => ReadsClause(t.a, t.w) && Within(t.c, m)
    case COut => ReadsClause(t.a, t.w) && Within(t.c, m) && (t.kind.ReadClauseData? || t.kind.ReadClauseValue?)
    case CMem => ReadsClause(t.a, t.w) && Within(t.c, m) && (t.kind.ReadClauseData? || t.kind.ReadClauseValue?)
    case CResp => ReadsClause(t.a, t.w) && Within(t.c, m) && (t.kind.ReadClauseData? || t.kind.ReadClauseValue?)
    case CValue => ReadsClause(t.a, t.w) && Within(t.c, m)
    case CProc => ReadsClause(t.a, t.w) && Within(t.c, m)
    case CWrite => ReadsClause(t.a, t.w) && t.c == if m == 0 then 0 else m - 1
    case KIn => ReadsClause(t.a, t.w) && t.c == if m == 0 then 0 else m - 1
    case KOut => ReadsClause(t.a, t.w) && t.c == if m == 0 then 0 else m - 1
  }

  ghost predicate AllWellFormed(m: multiset<Token>) { forall t :: t in m ==> WellFormed(t) }

  predicate FirstThree(s: seq<Token>)
  {
    && |s| <= 3
    && (|s| > 0 ==> WellFormed(s[0]))
    && (|s| > 1 ==> WellFormed(s[1]))
    && (|s| > 2 ==> WellFormed(s[2]))
  }

  lemma WatcherSuccWellFormed(t: Token)
    requires InWatcher(t.p) && WellFormed(t)
    ensures FirstThree(WatcherSucc(t))
  {
  }

  lemma ClauseSuccWellFormed(t: Token)
    requires !InWatcher(t.p) && WellFormed(t)
    ensures FirstThree(ClauseSucc(t))
  {
  }

  lemma SuccWellFormed(t: Token)
    requires WellFormed(t)
    ensures AllWellFormed(multiset(Succ(t)))
  {
    hide WellFormed, WatcherSucc, ClauseSucc;
    if InWatcher(t.p) { WatcherSuccWellFormed(t); } else { ClauseSuccWellFormed(t); }
    forall x | x in multiset(Succ(t)) ensures WellFormed(x) {
      var i :| 0 <= i < |Succ(t)| && Succ(t)[i] == x;
    }
  }
}
