// The two address maps of src/cache_interface.cc, for 2^k partitions: from an
// address to the address inside its partition, and back.
module AddressMap {
  import opened Arithmetic
  import Cache

  function Pow2(k: nat): (p: nat)
    ensures p > 0
  {
    if k == 0 then 1 else 2 * Pow2(k - 1)
  }

  const WORD: nat := 0x1_0000_0000_0000_0000
  const SPACE: nat := 0x1_0000_0000
  const BLOCK: nat := 64

  function Partition(addr: nat, k: nat): nat { addr / BLOCK % Pow2(k) }

  // The low six bits of an address, and the address with those bits cleared.
  function Offset(x: nat): nat { x % BLOCK }
  function Cleared(x: nat): nat { x / BLOCK * BLOCK }

  // Line 17 shifts the address, and line 18 overwrites the result.
  function CacheAddr(addr: nat, k: nat): nat
  {
    var blockContent := Offset(addr);
    var shifted := Div(addr, Pow2(k));
    var newAddr := Cleared(addr);
    newAddr + blockContent
  }

  // The map with line 18 masking the shifted address.
  function ShiftedCacheAddr(addr: nat, k: nat): nat
  {
    var shifted := Div(addr, Pow2(k));
    Cleared(shifted) + Offset(addr)
  }

  function RealAddr(cacheAddr: nat, p: nat, k: nat): nat
  {
    var newAddr := Cleared(cacheAddr) * Pow2(k) % WORD;
    (newAddr + p * BLOCK + Offset(cacheAddr)) % WORD
  }

  lemma Pow2Bound(k: nat, m: nat)
    requires k <= m
    ensures Pow2(k) <= Pow2(m)
    decreases m
  {
    if k < m { Pow2Bound(k, m - 1); }
  }

  lemma {:induction false} Pow2Add(a: nat, b: nat)
    ensures Pow2(a + b) == Pow2(a) * Pow2(b)
    decreases b
  {
    if b > 0 {
      Pow2Add(a, b - 1);
      assert a + b - 1 == a + (b - 1);
    }
  }

  // Where nothing wraps, the way back puts the partition below the block.
  lemma RealAddrIs(q: nat, off: nat, p: nat, k: nat)
    requires off < BLOCK && (q * Pow2(k) + p) * BLOCK + off < WORD
    ensures RealAddr(q * BLOCK + off, p, k) == (q * Pow2(k) + p) * BLOCK + off
  {
    hide Pow2;
    QuotientIs(q * BLOCK + off, BLOCK, q, off);
    Exchange(q, BLOCK, Pow2(k));
    NoWrap(q * Pow2(k) * BLOCK, p * BLOCK + off);
    Distribute3(q * Pow2(k), p);
  }

  lemma Distribute3(x: nat, p: nat)
    ensures (x + p) * BLOCK == x * BLOCK + p * BLOCK
  {
  }

  lemma NoWrap(x: nat, y: nat)
    requires x + y < WORD
    ensures (x % WORD + y) % WORD == x + y
  {
  }

  // As written, the first map is the identity.
  lemma CacheAddrIsIdentity(addr: nat, k: nat)
    ensures CacheAddr(addr, k) == addr
  {
  }

  // So the way back is right exactly with one partition, or for block 0 of
  // partition 0. The cache covers 32-bit addresses.
  lemma RoundTripIff(addr: nat, p: nat, k: nat)
    requires addr < SPACE && k <= 26 && p < Pow2(k)
    ensures RealAddr(CacheAddr(addr, k), p, k) == addr <==> k == 0 || (addr / BLOCK == 0 && p == 0)
  {
    var b, off, n := addr / BLOCK, addr % BLOCK, Pow2(k);
    Pow2Bound(k, 26);
    Pow2Of26();
    TwoAtLeast(k);
    hide Pow2, RealAddr, CacheAddr;
    CacheAddrIsIdentity(addr, k);
    DivParts(addr, BLOCK);
    SmallEnough(b, n, p, off);
    RealAddrIs(b, off, p, k);
    PlacesIff(b, n, p);
  }

  lemma SmallEnough(b: nat, n: nat, p: nat, off: nat)
    requires b * BLOCK < SPACE && n <= 0x400_0000 && p < n && off < BLOCK
    ensures (b * n + p) * BLOCK + off < WORD
  {
    MulMono(b, 0x3ff_ffff, n);
  }

  lemma PlacesIff(b: nat, n: nat, p: nat)
    requires p < n
    ensures (b * n + p) * BLOCK == b * BLOCK <==> n == 1 || (b == 0 && p == 0)
  {
    if n >= 2 { MulMono(2, n, b); }
  }

  lemma TwoAtLeast(k: nat)
    ensures k == 0 ==> Pow2(k) == 1
    ensures k > 0 ==> Pow2(k) >= 2
  {
  }

  lemma Pow2Of26()
    ensures Pow2(26) == 0x400_0000
  {
    Pow2Add(13, 13);
    assert Pow2(13) == 8192 by {
      Pow2Add(6, 7);
      assert Pow2(6) == 64 && Pow2(7) == 128 by {
        assert Pow2(3) == 8;
        Pow2Add(3, 3);
        Pow2Add(6, 1);
        assert Pow2(1) == 2;
      }
    }
  }

  // With the shift kept, the maps are inverse to each other: the way back from
  // the partition of an address,
  lemma ShiftedRoundTrip(addr: nat, k: nat)
    requires addr < WORD
    ensures RealAddr(ShiftedCacheAddr(addr, k), Partition(addr, k), k) == addr
  {
    hide Pow2, RealAddr;
    var n, b, off := Pow2(k), addr / BLOCK, addr % BLOCK;
    DivTwice(addr, n, BLOCK);
    DivTwice(addr, BLOCK, n);
    var q := b / n;
    ShiftedIs(addr, k);
    assert b == q * n + b % n;
    RealAddrIs(q, off, b % n, k);
  }

  lemma ShiftedIs(addr: nat, k: nat)
    ensures ShiftedCacheAddr(addr, k) == addr / BLOCK / Pow2(k) * BLOCK + addr % BLOCK
  {
    hide Pow2;
    DivTwice(addr, Pow2(k), BLOCK);
    DivTwice(addr, BLOCK, Pow2(k));
  }

  // and the way there, for every address inside a partition.
  lemma ShiftedThereAndBack(c: nat, p: nat, k: nat)
    requires k <= 58 && p < Pow2(k) && c < Pow2(64 - k)
    ensures ShiftedCacheAddr(RealAddr(c, p, k), k) == c && Partition(RealAddr(c, p, k), k) == p
  {
    var n, q, off := Pow2(k), c / BLOCK, c % BLOCK;
    assert (q * n + p) * BLOCK + off < WORD by { Fits(c, p, k); }
    hide Pow2, RealAddr;
    RealAddrIs(q, off, p, k);
    var a := (q * n + p) * BLOCK + off;
    ShiftedIs(a, k);
    QuotientIs(a, BLOCK, q * n + p, off);
    QuotientIs(q * n + p, n, q, p);
  }

  lemma Fits(c: nat, p: nat, k: nat)
    requires k <= 58 && p < Pow2(k) && c < Pow2(64 - k)
    ensures (c / BLOCK * Pow2(k) + p) * BLOCK + c % BLOCK < WORD
  {
    var n, q, m := Pow2(k), c / BLOCK, Pow2(58 - k);
    assert 64 - k == (58 - k) + 6;
    Pow2Add(58 - k, 6);
    Pow2Of6();
    Pow2Of64(k);
    hide Pow2;
    DivParts(c, BLOCK);
    MulMono(q + 1, m, n);
    NextMultiple(q, n);
  }

  lemma Pow2Of64(k: nat)
    requires k <= 58
    ensures Pow2(58 - k) * Pow2(k) * BLOCK == WORD
  {
    hide Pow2;
    Pow2Add(58 - k, k);
    Pow2Add(26, 26);
    Pow2Of26();
    Pow2Add(52, 6);
    Pow2Of6();
  }

  lemma Pow2Of6()
    ensures Pow2(6) == 64
  {
    Pow2Add(3, 3);
    assert Pow2(3) == 8;
  }

  // Covering only 32 bits does not move an address to another partition: a
  // request sent to the partition of its address is one of the cache's own.
  lemma OwnPartition(addr: nat, k: nat)
    requires k <= 26
    ensures Cache.Part(Cache.Block(addr), Pow2(k)) == Cache.Part(addr, Pow2(k)) == Partition(addr, k)
  {
    var n, m := Pow2(k), Pow2(26 - k);
    assert m * n == 0x400_0000 by {
      Pow2Add(26 - k, k);
      Pow2Of26();
    }
    hide Pow2, Cache.Block;
    var high, low := addr / SPACE, addr % SPACE;
    BlockNumber(addr);
    assert high * 0x400_0000 == high * m * n by { Exchange(high, m, n); Exchange3(high, m, n); }
    ModAdd(high * m, low / BLOCK, n);
  }

  lemma BlockNumber(addr: nat)
    ensures Cache.Block(addr) / BLOCK == addr % SPACE / BLOCK
    ensures addr / BLOCK == addr / SPACE * 0x400_0000 + addr % SPACE / BLOCK
  {
  }

}
