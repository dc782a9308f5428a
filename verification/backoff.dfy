/** Exponential backoff in 64-bit nanoseconds: when doubling keeps its closed form. */
module Backoff {

  const TWO_62: int := 0x4000_0000_0000_0000
  const TWO_63: int := 0x8000_0000_0000_0000
  const TWO_64: int := 0x1_0000_0000_0000_0000

  // A duration as the machine keeps it: two's complement on 64 bits.
  function Wrap64(x: int): (w: int)
    ensures -TWO_63 <= w < TWO_63
    ensures -TWO_63 <= x < TWO_63 ==> w == x
  {
    var r := x % TWO_64;
    if r < TWO_63 then r else r - TWO_64
  }

  function Pow2(n: nat): (p: nat)
    ensures p >= 1
  {
    if n == 0 then 1 else 2 * Pow2(n - 1)
  }

  // x and w name the same machine word.
  ghost predicate SameWord(x: int, w: int) {
    exists q: int :: x == w + q * TWO_64
  }

  lemma WrapIsSameWord(x: int)
    ensures SameWord(x, Wrap64(x))
  {
    var q := x / TWO_64;
    assert x == q * TWO_64 + x % TWO_64;
    if x % TWO_64 < TWO_63 {
      assert x == Wrap64(x) + q * TWO_64;
    } else {
      assert x == Wrap64(x) + (q + 1) * TWO_64;
    }
  }

  lemma SameWordsWrapAlike(x: int, y: int)
    requires SameWord(x, y)
    ensures Wrap64(x) == Wrap64(y)
  {
    var q: int :| x == y + q * TWO_64;
    WrapIsSameWord(x);
    WrapIsSameWord(y);
    var a: int :| x == Wrap64(x) + a * TWO_64;
    var b: int :| y == Wrap64(y) + b * TWO_64;
    assert Wrap64(x) - Wrap64(y) == (b + q - a) * TWO_64;
  }

  // Doubling the wrapped value and wrapping again loses nothing more than wrapping once.
  lemma WrapDoubles(x: int)
    ensures Wrap64(2 * Wrap64(x)) == Wrap64(2 * x)
  {
    WrapIsSameWord(x);
    var q: int :| x == Wrap64(x) + q * TWO_64;
    assert 2 * x == 2 * Wrap64(x) + (2 * q) * TWO_64;
    SameWordsWrapAlike(2 * x, 2 * Wrap64(x));
  }

  lemma {:induction false} Pow2Grows(m: nat, n: nat)
    requires m <= n
    ensures Pow2(m) <= Pow2(n)
  {
    if m < n { Pow2Grows(m, n - 1); }
  }

  lemma {:induction false} Pow2Adds(m: nat, n: nat)
    ensures Pow2(m + n) == Pow2(m) * Pow2(n)
  {
    if n > 0 {
      Pow2Adds(m, n - 1);
      assert Pow2(m) * Pow2(n) == 2 * (Pow2(m) * Pow2(n - 1));
    }
  }

  // ---- Publishing: 10ms, doubled after every failed attempt but the last ----

  const FIRST_WAIT: int := 10_000_000

  // The wait after failed attempt k, as the loop holds it.
  function PublishWait(k: nat): int
    requires k >= 1
  {
    Wrap64(FIRST_WAIT * Pow2(k - 1))
  }

  lemma PublishWaitDoubles(k: nat)
    requires k >= 1
    ensures PublishWait(k + 1) == Wrap64(2 * PublishWait(k))
  {
    WrapDoubles(FIRST_WAIT * Pow2(k - 1));
    assert FIRST_WAIT * Pow2(k) == 2 * (FIRST_WAIT * Pow2(k - 1));
  }

  lemma WaitIsExactUpTo40(k: nat)
    requires k >= 1
    ensures FIRST_WAIT * Pow2(k - 1) < TWO_63 <==> k <= 40
  {
    assert Pow2(3) == 8 && Pow2(6) == 64 && Pow2(9) == 512 && Pow2(10) == 1024;
    Pow2Adds(10, 10);
    Pow2Adds(20, 10);
    Pow2Adds(30, 9);
    assert Pow2(39) == 549_755_813_888 && Pow2(40) == 1_099_511_627_776;
    if k <= 40 { Pow2Grows(k - 1, 39); } else { Pow2Grows(40, k - 1); }
  }

  // The loop with `max` attempts computes max - 1 doublings; none of them overflows exactly
  // when max is at most 40, and then every wait is 10ms times a power of two.
  lemma NoOverflowIff40(max: nat)
    requires max >= 1
    ensures (forall k :: 1 <= k <= max ==> PublishWait(k) == FIRST_WAIT * Pow2(k - 1)) <==> max <= 40
  {
    if max <= 40 {
      forall k | 1 <= k <= max ensures PublishWait(k) == FIRST_WAIT * Pow2(k - 1) {
        WaitIsExactUpTo40(k);
      }
    } else {
      WaitIsExactUpTo40(41);
      assert PublishWait(41) != FIRST_WAIT * Pow2(41 - 1);
    }
  }

  // The last value computed is never slept: the waits that are slept, after all failed
  // attempts but the last, are exact for one attempt more.
  lemma SleptExactIff41(max: nat)
    requires max >= 1
    ensures (forall k :: 1 <= k < max ==> PublishWait(k) == FIRST_WAIT * Pow2(k - 1)) <==> max <= 41
  {
    if max <= 41 {
      forall k | 1 <= k < max ensures PublishWait(k) == FIRST_WAIT * Pow2(k - 1) {
        WaitIsExactUpTo40(k);
      }
    } else {
      WaitIsExactUpTo40(41);
      assert PublishWait(41) != FIRST_WAIT * Pow2(41 - 1);
    }
  }

  // A timer with a negative duration fires at once.
  function Slept(wait: int): nat {
    if wait < 0 then 0 else wait
  }

  function TotalSlept(waits: seq<int>): nat {
    if waits == [] then 0 else TotalSlept(waits[..|waits| - 1]) + Slept(waits[|waits| - 1])
  }

  lemma WrapNotAbove(x: nat)
    ensures Slept(Wrap64(x)) <= x
  {
    assert x % TWO_64 <= x by {
      assert x == (x / TWO_64) * TWO_64 + x % TWO_64;
    }
  }

  // However many attempts are configured, n waits last at most 10ms * (2^n - 1) together.
  lemma {:induction false} TotalBackoff(waits: seq<int>)
    requires forall i :: 0 <= i < |waits| ==> waits[i] == PublishWait(i + 1)
    ensures TotalSlept(waits) <= FIRST_WAIT * (Pow2(|waits|) - 1)
  {
    if waits != [] {
      var n := |waits| - 1;
      TotalBackoff(waits[..n]);
      WrapNotAbove(FIRST_WAIT * Pow2(n));
      assert Pow2(n + 1) == 2 * Pow2(n);
    }
  }

  // ---- Registration: doubled and capped ----

  function NextBackoff(backoff: int, max: int): int {
    var doubled := Wrap64(2 * backoff);
    if doubled > max then max else doubled
  }

  // The k-th wait.
  function RegistrationWait(initial: int, max: int, k: nat): int
    requires k >= 1
  {
    if k == 1 then initial else NextBackoff(RegistrationWait(initial, max, k - 1), max)
  }

  function Capped(initial: int, max: int, k: nat): int
    requires k >= 1
  {
    var grown := initial * Pow2(k - 1);
    if k == 1 || grown <= max then grown else max
  }

  ghost predicate ClosedForm(initial: int, max: int) {
    forall k: nat :: k >= 1 ==> RegistrationWait(initial, max, k) == Capped(initial, max, k)
  }

  lemma {:induction false} CappedHolds(initial: int, max: int, k: nat)
    requires 0 < initial < TWO_62 && 0 < max < TWO_62 && k >= 1
    ensures RegistrationWait(initial, max, k) == Capped(initial, max, k)
    ensures 0 < RegistrationWait(initial, max, k) < TWO_62
  {
    if k == 1 {
      assert Pow2(0) == 1;
    } else {
      CappedHolds(initial, max, k - 1);
      assert initial * Pow2(k - 1) == 2 * (initial * Pow2(k - 2));
      assert initial * Pow2(k - 2) >= 1;
    }
  }

  // Doubling from below 2^62 passes through [2^62, 2^63).
  lemma {:induction false} ReachesTheTop(initial: int, j: nat) returns (k: nat)
    requires 0 < initial && j >= 1 && initial * Pow2(j - 1) < TWO_62
    ensures k > j && initial * Pow2(k - 2) < TWO_62 <= initial * Pow2(k - 1) < TWO_63
    decreases TWO_62 - initial * Pow2(j - 1)
  {
    assert initial * Pow2(j) == 2 * (initial * Pow2(j - 1));
    assert initial * Pow2(j - 1) >= 1;
    if initial * Pow2(j) < TWO_62 {
      k := ReachesTheTop(initial, j + 1);
    } else {
      k := j + 1;
    }
  }

  // The closed form min(initial * 2^(k-1), max) holds for every wait exactly when neither
  // setting reaches 2^62 nanoseconds; past that a doubling overflows.
  lemma ClosedFormIff(initial: int, max: int)
    requires 0 < initial < TWO_63 && 0 < max < TWO_63
    ensures ClosedForm(initial, max) <==> initial < TWO_62 && max < TWO_62
  {
    if initial < TWO_62 && max < TWO_62 {
      forall k: nat | k >= 1 ensures RegistrationWait(initial, max, k) == Capped(initial, max, k) {
        CappedHolds(initial, max, k);
      }
    } else if initial >= TWO_62 {
      OverflowBreaksForm(initial, max, 1);
    } else {
      assert Pow2(0) == 1;
      var k := ReachesTheTop(initial, 1);
      OverflowBreaksForm(initial, max, k);
    }
  }

  lemma OverflowBreaksForm(initial: int, max: int, k: nat)
    requires 0 < initial < TWO_63 && 0 < max < TWO_63 && k >= 1
    requires TWO_62 <= Capped(initial, max, k) < TWO_63
    ensures !ClosedForm(initial, max)
  {
    var c := Capped(initial, max, k);
    if RegistrationWait(initial, max, k) == c {
      assert SameWord(2 * c, 2 * c - TWO_64) by { assert 2 * c == (2 * c - TWO_64) + 1 * TWO_64; }
      SameWordsWrapAlike(2 * c, 2 * c - TWO_64);
      assert RegistrationWait(initial, max, k + 1) <= 0;
      assert initial * Pow2(k) >= 1;
      assert Capped(initial, max, k + 1) > 0;
    }
  }

  // Waits never get shorter when the first one is within the cap.
  lemma NonDecreasing(initial: int, max: int, k: nat)
    requires 0 < initial <= max < TWO_62 && k >= 1
    ensures RegistrationWait(initial, max, k) <= RegistrationWait(initial, max, k + 1) <= max
  {
    CappedHolds(initial, max, k);
    CappedHolds(initial, max, k + 1);
    GrowsTwofold(initial, k);
  }

  // Below 2^62 and within the cap the waits are not capped.
  lemma {:induction false} Uncapped(initial: int, max: int, k: nat)
    requires 0 < initial && k >= 1 && initial * Pow2(k - 1) < TWO_62 <= max
    ensures RegistrationWait(initial, max, k) == initial * Pow2(k - 1)
  {
    if k == 1 {
      assert Pow2(0) == 1;
    } else {
      GrowsTwofold(initial, k - 1);
      Uncapped(initial, max, k - 1);
    }
  }

  lemma DropsAfter(initial: int, max: int, k: nat)
    requires k >= 1 && TWO_62 <= RegistrationWait(initial, max, k) < TWO_63 && max >= 0
    ensures RegistrationWait(initial, max, k + 1) < RegistrationWait(initial, max, k)
  {
    var w := RegistrationWait(initial, max, k);
    assert SameWord(2 * w, 2 * w - TWO_64) by { assert 2 * w == (2 * w - TWO_64) + 1 * TWO_64; }
    SameWordsWrapAlike(2 * w, 2 * w - TWO_64);
  }

  ghost predicate NeverShorter(initial: int, max: int) {
    forall k: nat :: k >= 1 ==> RegistrationWait(initial, max, k) <= RegistrationWait(initial, max, k + 1)
  }

  // When the first wait is within the cap, no wait is shorter than the one before if and only
  // if the cap is below 2^62 nanoseconds; under a larger one a doubling overflows.
  lemma NonDecreasingIff(initial: int, max: int)
    requires 0 < initial <= max < TWO_63
    ensures NeverShorter(initial, max) <==> max < TWO_62
  {
    if max < TWO_62 {
      forall k: nat | k >= 1 ensures RegistrationWait(initial, max, k) <= RegistrationWait(initial, max, k + 1) {
        NonDecreasing(initial, max, k);
      }
    } else if initial >= TWO_62 {
      DropsAfter(initial, max, 1);
    } else {
      assert Pow2(0) == 1;
      var k := ReachesTheTop(initial, 1);
      Uncapped(initial, max, k - 1);
      GrowsTwofold(initial, k - 1);
      assert RegistrationWait(initial, max, k) == NextBackoff(RegistrationWait(initial, max, k - 1), max);
      DropsAfter(initial, max, k);
    }
  }

  lemma GrowsTwofold(initial: int, k: nat)
    requires initial > 0 && k >= 1
    ensures initial * Pow2(k) == 2 * (initial * Pow2(k - 1)) && initial * Pow2(k - 1) > 0
  {
  }
}
