// src/cache_interface.cc: the front end of the L3 cache, with a real DRAM. The
// cache arrays are not visible; what they answer to an access is an input, and
// Legal says what the front end relies on.
module Cache {
  import opened Arithmetic
  import opened Forest
  import M = Memory

  // A request at the cache. `id` tells requests apart.
  datatype Access = Access(write: bool, addr: nat, id: int)

  const SPACE: nat := 0x1_0000_0000
  const BLOCK: nat := 64

  // Only 4 GB of addresses are covered. A block is named by its first address,
  // and belongs to one of n partitions.
  function Block(addr: nat): nat { addr % SPACE - addr % SPACE % BLOCK }

  // A block starts a line of 64 bytes, and it is the line that the lower 32 bits
  // of the address lie in.
  lemma BlockSpan(addr: nat)
    ensures Block(addr) % 64 == 0 && Block(addr) <= addr % 0x1_0000_0000 < Block(addr) + 64
  {
    var a := addr % SPACE;
    assert a == 64 * (a / 64) + a % 64;
    assert Block(addr) == 64 * (a / 64);
  }

  function Part(addr: nat, n: nat): (p: nat)
    requires n > 0
    ensures p < n
  {
    addr / BLOCK % n
  }

  // The lines are dealt out to the partitions in turn.
  lemma PartStripes(addr: nat, n: nat)
    requires n > 0
    ensures addr < 64 ==> Part(addr, n) == 0
    ensures Part(addr + 64, n) == (Part(addr, n) + 1) % n
    ensures forall b: nat :: b / 64 == addr / 64 ==> Part(b, n) == Part(addr, n)
  {
    assert (addr + 64) / BLOCK == addr / BLOCK + 1;
    ModOfSum(addr / BLOCK, 1, n);
    assert addr < 64 ==> addr / BLOCK == 0;
    assert 0 % n == 0;
  }

  // The answer of the cache arrays. A miss may evict a dirty block, which is
  // then written back to the given address.
  datatype Outcome = Hit | HitReserved | Miss(dirty: Option<nat>) | ResFail

  // A response and the cycle in which it entered the delay queue.
  datatype Timed = Timed(since: nat, x: Access)

  // The queues of each partition, addr_to_req, and, per partition, the blocks
  // that the cache holds reserved. `failed` records an assert that did not hold.
  datatype State = State(
    ins: seq<seq<Access>>, delays: seq<seq<Timed>>, outs: seq<seq<Access>>,
    waiting: map<nat, seq<Access>>, missQ: seq<M.Fetch>, respQ: seq<nat>,
    mem: M.State, reserved: seq<set<nat>>,
    now: nat, parallel: int, failed: bool)

  const IN_SIZE: nat := 64
  const MISS_SIZE: nat := 64
  const DELAY_SIZE: nat := 64
  const CACHE_DELAY: nat := 2

  ghost predicate Shape(s: State) {
    |s.ins| == |s.delays| == |s.outs| == |s.reserved| > 0
  }

  function Start(n: nat): (s: State)
    ensures n > 0 ==> Shape(s)
    ensures |s.ins| == n
  {
    State(seq(n, _ => []), seq(n, _ => []), seq(n, _ => []), map[], [], [],
          M.Fresh(), seq(n, _ => {}), 0, 0, false)
  }

  // One thing that happens: a request comes from, or a response goes to, the
  // network of partition i; the clock ticks; the request at the front of
  // partition i is tried at the cache; or one of the queues behind it moves.
  datatype Action =
    | Arrive(i: nat, x: Access)
    | Take(i: nat)
    | Tick
    | Probe(i: nat, o: Outcome)
    | MissToDram
    | MemAccept
    | MemCalls(j: nat)
    | MemDrain
    | DramToResp
    | DelayToOut(i: nat)

  predicate Due(s: State, i: nat)
    requires i < |s.delays|
  {
    s.delays[i] != [] && s.now > s.delays[i][0].since + CACHE_DELAY
  }

  predicate Enabled(s: State, a: Action)
  {
    match a
    case Arrive(i, x) => i < |s.ins|
    case Take(i) => i < |s.outs| && s.outs[i] != []
    case Tick => true
    case Probe(i, o) => i < |s.ins| && s.ins[i] != [] && |s.missQ| < MISS_SIZE
    case MissToDram => s.missQ != []
    case MemAccept => s.mem.inQ != []
    case MemCalls(j) => j < |s.mem.inside|
    case MemDrain => s.mem.outQ != []
    case DramToResp => s.respQ != [] && |s.delays| > 0 && |s.delays[Part(s.respQ[0], |s.delays|)]| < DELAY_SIZE
    case DelayToOut(i) => i < |s.delays| && Due(s, i)
  }

  // What the front end relies on: each partition receives its own addresses
  // only, and the cache answers a read with hit_res exactly if its block is
  // reserved, unless it has no room to answer it at all.
  predicate Legal(s: State, a: Action)
    requires Enabled(s, a)
  {
    match a
    case Arrive(i, x) => Part(Block(x.addr), |s.ins|) == i
    case Probe(i, o) =>
      !s.ins[i][0].write && !o.ResFail? && i < |s.reserved| ==>
        (o.HitReserved? <==> Block(s.ins[i][0].addr) in s.reserved[i])
    case _ => true
  }

  function Waiters(s: State, b: nat): seq<Access> { if b in s.waiting then s.waiting[b] else [] }

  function WriteBack(dirty: Option<nat>): seq<M.Fetch> {
    if dirty.Some? then [M.Fetch(false, dirty.value)] else []
  }

  function ProbeStep(s: State, i: nat, o: Outcome): State
    requires Shape(s) && Enabled(s, Probe(i, o))
  {
    var x := s.ins[i][0];
    var b := Block(x.addr);
    var s' := s.(ins := s.ins[i := s.ins[i][1..]]);
    if o.ResFail? then s
    else if x.write then s'.(missQ := s.missQ + if o.Miss? then WriteBack(o.dirty) else [])
    else match o
      case Hit => s'.(delays := s.delays[i := s.delays[i] + [Timed(s.now, x)]])
      case HitReserved =>
        s'.(waiting := s.waiting[b := Waiters(s, b) + [x]],
            failed := s.failed || Waiters(s, b) == [])
      case Miss(dirty) =>
        s'.(waiting := s.waiting[b := Waiters(s, b) + [x]],
            missQ := s.missQ + WriteBack(dirty) + [M.Fetch(true, b)],
            reserved := s.reserved[i := s.reserved[i] + {b}],
            failed := s.failed || Waiters(s, b) != [])
  }

  function Stamp(now: nat, xs: seq<Access>): seq<Timed> {
    seq(|xs|, k requires 0 <= k < |xs| => Timed(now, xs[k]))
  }

  function RespStep(s: State): State
    requires Shape(s) && Enabled(s, DramToResp)
  {
    var b := s.respQ[0];
    var p := Part(b, |s.delays|);
    s.(respQ := s.respQ[1..],
       reserved := s.reserved[p := s.reserved[p] - {b}],
       delays := s.delays[p := s.delays[p] + Stamp(s.now, Waiters(s, b))],
       waiting := s.waiting - {b},
       failed := s.failed || Waiters(s, b) == [])
  }

  function Apply(s: State, a: Action): (s': State)
    requires Shape(s)
    ensures Shape(s') && |s'.ins| == |s.ins|
  {
    if !Enabled(s, a) then s
    else match a
      case Arrive(i, x) => s.(ins := s.ins[i := s.ins[i] + [x]])
      case Take(i) => s.(outs := s.outs[i := s.outs[i][1..]])
      case Tick => s.(now := s.now + 1)
      case Probe(i, o) => ProbeStep(s, i, o)
      case MissToDram =>
        s.(missQ := s.missQ[1..], parallel := s.parallel + 1, mem := M.Send(s.mem, s.missQ[0]))
      case MemAccept => s.(mem := M.Accept(s.mem))
      case MemCalls(j) => s.(mem := M.CallBack(s.mem, j))
      case MemDrain =>
        s.(respQ := s.respQ + [s.mem.outQ[0]], parallel := s.parallel - 1, mem := M.Pop(s.mem),
           failed := s.failed || s.parallel - 1 < 0)
      case DramToResp => RespStep(s)
      case DelayToOut(i) =>
        s.(delays := s.delays[i := s.delays[i][1..]], outs := s.outs[i := s.outs[i] + [s.delays[i][0].x]])
  }

  function Run(s: State, acts: seq<Action>): (s': State)
    requires Shape(s)
    ensures Shape(s') && |s'.ins| == |s.ins|
    decreases |acts|
  {
    if acts == [] then s else Apply(Run(s, acts[..|acts| - 1]), acts[|acts| - 1])
  }

  // A run with legal surroundings. An action that is not possible does nothing.
  predicate Proper(s: State, acts: seq<Action>)
    requires Shape(s)
    decreases |acts|
  {
    acts == [] ||
    (var before, a := acts[..|acts| - 1], acts[|acts| - 1];
     Proper(s, before) && (Enabled(Run(s, before), a) ==> Legal(Run(s, before), a)))
  }

  predicate Empty(s: State) {
    && (forall i :: 0 <= i < |s.delays| ==> s.delays[i] == [])
    && (forall i :: 0 <= i < |s.ins| ==> s.ins[i] == [])
    && (forall i :: 0 <= i < |s.outs| ==> s.outs[i] == [])
    && s.waiting == map[] && s.missQ == [] && s.respQ == [] && M.Empty(s.mem)
  }
}
