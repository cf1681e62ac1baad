// Which watcher takes an assignment from the trail (src/acc.cc:393): its value
// halved, so that both literals of a variable meet, modulo the watchers.
module Dispatch {
  import opened Arithmetic

  const UNSIGNED: nat := 0x1_0000_0000

  // The value is a signed 32-bit number. It is halved towards zero, and taken as
  // an unsigned number before the remainder.
  function WatcherFor(value: int, n: nat, single: bool): (i: nat)
    requires n > 0
    ensures i < n
  {
    var half := if value >= 0 then value / 2 else -(-value / 2);
    if single then 0 else half % UNSIGNED % n
  }

  lemma SingleTakesAll(value: int, n: nat)
    requires n > 0
    ensures WatcherFor(value, n, true) == 0
  {
  }

  // Variable q, as either literal.
  lemma OfVariable(q: nat, n: nat)
    requires n > 0 && 2 * q + 1 < 0x8000_0000
    ensures WatcherFor(2 * q, n, false) == WatcherFor(2 * q + 1, n, false) == q % n
  {
    assert 2 * q / 2 == q && (2 * q + 1) / 2 == q;
    assert q % UNSIGNED == q;
  }

  // The variables are dealt out in turn: both literals of a variable go to one
  // watcher, variable 0 to watcher 0, each next one to the next watcher, and two
  // variables share a watcher exactly if they are the same modulo n.
  lemma DealtInTurn(q: nat, q': nat, n: nat)
    requires n > 0 && 2 * q + 3 < 0x8000_0000 && 2 * q' + 1 < 0x8000_0000
    ensures WatcherFor(2 * q, n, false) == WatcherFor(2 * q + 1, n, false)
    ensures WatcherFor(0, n, false) == 0
    ensures WatcherFor(2 * (q + 1), n, false) == (WatcherFor(2 * q, n, false) + 1) % n
    ensures WatcherFor(2 * q, n, false) == WatcherFor(2 * q', n, false) <==> q % n == q' % n
  {
    OfVariable(q, n);
    OfVariable(q', n);
    OfVariable(q + 1, n);
    OfVariable(0, n);
    assert 0 % n == 0;
    hide WatcherFor;
    ModOfSum(q, 1, n);
  }

  // A negative value counts down from 2^32: -2q and -2q - 1 go to one watcher,
  // the q-th before the one that 2^32 would go to; -1 goes to watcher 0.
  lemma Negative(q: nat, n: nat)
    requires n > 0 && 0 < q <= 0x4000_0000
    ensures var i := WatcherFor(-2 * q, n, false);
            && (2 * q < 0x8000_0000 ==> WatcherFor(-2 * q - 1, n, false) == i)
            && (i + q) % n == 0x1_0000_0000 % n
    ensures WatcherFor(-1, n, false) == 0
  {
    assert 2 * q / 2 == q && (2 * q + 1) / 2 == q;
    var half: int := 0 - q;
    assert half % UNSIGNED == UNSIGNED - q;
    ModOfSum(UNSIGNED - q, q, n);
    assert 0 % UNSIGNED % n == 0;
  }
}
