/** Trial division as in primes.c, with the machine's unsigned arithmetic. */
module Primes {
  const UINT := 0x1_0000_0000
  const ULONG := 0x1_0000_0000_0000_0000

  /** Nothing but 1 and the number itself divides it. */
  ghost predicate IsPrime(n: int) {
    n >= 2 && forall d | 2 <= d < n :: n % d != 0
  }

  /** No number from 2 up to but not including the bound divides n. */
  ghost predicate NoneBelow(n: nat, bound: nat) {
    forall d | 2 <= d < bound :: n % d != 0
  }

  /** The product of two unsigned longs. */
  function Product(a: nat, b: nat): nat { (a * b) % ULONG }

  lemma SquareFits(i: nat)
    requires i <= 0x1_0001
    ensures i * i < ULONG && Product(i, i) == i * i
  {
    Monotone(i, 0x1_0001);
  }

  lemma Monotone(a: nat, b: nat)
    requires a <= b
    ensures a * a <= b * b
  {
    assert b * b == a * a + (b - a) * (b + a);
  }

  /** A divisor has a partner, and their product is the number. */
  lemma Cofactor(n: nat, d: nat) returns (e: nat)
    requires d > 0 && n % d == 0
    ensures n == d * e && (n > 0 ==> e > 0 && n % e == 0)
  {
    e := n / d;
    assert n == d * e + n % d;
    if n > 0 {
      assert e > 0;
      Multiple(d, e);
    }
  }

  lemma Multiple(a: nat, e: nat)
    requires e > 0
    ensures (a * e) % e == 0
  {
    var q, r := (a * e) / e, (a * e) % e;
    assert (a - q) * e == r;
    if a > q { Grows(a - q, e); } else if a < q { Grows(q - a, e); }
  }

  lemma Grows(k: nat, e: nat)
    requires k > 0
    ensures k * e >= e
  {
  }

  /** No prime is a product, */
  lemma ProductsAreNotPrime(a: nat, b: nat)
    requires a > 1 && b > 1
    ensures !IsPrime(a * b) && !IsPrime(0) && !IsPrime(1)
  {
    Multiple(a, b);
    Multiple(2, b);
    assert a * b >= 2 * b > b;
    assert (a * b) % b == 0;
  }

  /** and every other number is one. */
  lemma OthersAreProducts(n: nat) returns (a: nat, b: nat)
    requires n > 1 && !IsPrime(n)
    ensures a > 1 && b > 1 && n == a * b
  {
    a :| 2 <= a < n && n % a == 0;
    b := Cofactor(n, a);
    assert b != 1;
  }

  lemma EvenMultiple(n: nat, d: nat)
    requires d > 0 && d % 2 == 0 && n % d == 0
    ensures n % 2 == 0
  {
    var e := Cofactor(n, d);
    assert n == 2 * ((d / 2) * e);
  }

  /** If nothing up to the square root divides a number, nothing does. */
  lemma UpToTheRoot(n: nat, i: nat)
    requires n >= 2 && i >= 2 && i * i > n && NoneBelow(n, i)
    ensures IsPrime(n)
  {
    forall d | 2 <= d < n ensures n % d != 0 {
      if n % d == 0 && d >= i {
        var e := Cofactor(n, d);
        assert e != 1;
        assert e >= i;
        Bigger(i, d, e);
      }
    }
  }

  lemma Bigger(i: nat, d: nat, e: nat)
    requires d >= i && e >= i
    ensures d * e >= i * i
  {
    assert d * e >= i * e >= i * i;
  }

  /** is_prime: the answer is right for every unsigned int, and the square computed for the loop test is the true one. */
  method TestPrime(num: nat) returns (result: bool)
    requires num < 0x1_0000_0000
    ensures result <==> IsPrime(num)
  {
    if num < 2 {
      return false;
    } else if num == 2 {
      return true;
    } else if num % 2 == 0 {
      return false;
    } else {
      var i := 3;
      SquareFits(i);
      while Product(i, i) <= num
        invariant 3 <= i <= 0x1_0001 && i % 2 == 1
        invariant Product(i, i) == i * i
        invariant NoneBelow(num, i)
        decreases 0x1_0001 - i
      {
        RootIsSmall(i, num);
        if num % i == 0 {
          return false;
        }
        NextOdd(num, i);
        i := i + 2;
        SquareFits(i);
      }
      UpToTheRoot(num, i);
      return true;
    }
  }

  lemma RootIsSmall(i: nat, n: nat)
    requires 3 <= i && i * i <= n < UINT
    ensures i < n && i <= 0xFFFF
  {
    assert i < i * i;
    if i > 0xFFFF { Monotone(0x1_0000, i); }
  }

  /** Even numbers need not be tried: they divide no odd number. */
  lemma NextOdd(n: nat, i: nat)
    requires n % 2 == 1 && i >= 3 && i % 2 == 1 && NoneBelow(n, i) && n % i != 0
    ensures NoneBelow(n, i + 2)
  {
    if n % (i + 1) == 0 { EvenMultiple(n, i + 1); }
  }

  // ---------------------------------------------------------------- where unsigned long has 32 bits

  /** The product of two unsigned longs on such a machine. */
  function NarrowProduct(a: nat, b: nat): nat { (a * b) % UINT }

  /** An odd number whose square wraps around to the largest value that any odd square can leave. */
  const STOP := 479_772_853

  lemma StopSquare()
    ensures NarrowProduct(STOP, STOP) == UINT - 7 && STOP % 2 == 1 && 0xFFFF < STOP < 0xFFFF * 0xFFFF
  {
    assert STOP * STOP == 53_593_420 * UINT + (UINT - 7);
  }

  lemma OddSquare(i: nat)
    requires i % 2 == 1
    ensures NarrowProduct(i, i) % 8 == 1
  {
    var k := i / 2;
    Halved(k);
    var h := k * (k + 1) / 2;
    assert i * i == 4 * (k * (k + 1)) + 1 == 8 * h + 1;
    RemainderOfEight(i * i, h);
  }

  lemma RemainderOfEight(n: nat, h: nat)
    requires n == 8 * h + 1
    ensures (n % UINT) % 8 == 1
  {
    assert n == UINT * (n / UINT) + n % UINT;
    assert UINT * (n / UINT) == 8 * (0x2000_0000 * (n / UINT));
  }

  lemma {:induction false} Halved(k: nat)
    ensures (k * (k + 1)) % 2 == 0
  {
    if k == 0 {
    } else {
      Halved(k - 1);
      assert k * (k + 1) == (k - 1) * k + 2 * k;
    }
  }

  /** How far the narrow loop can get. */
  predicate WithinReach(n: nat, i: nat) {
    && 3 <= i <= n && i % 2 == 1
    && (n < 0xFFFF * 0xFFFF ==> i <= 0xFFFF)
    && (n < UINT - 7 ==> i <= STOP)
  }

  lemma FirstReach(n: nat)
    requires n > 2 && n % 2 == 1
    ensures WithinReach(n, 3) && NoneBelow(n, 3)
  {
  }

  /** A divisor is found before the number itself, but for the numbers that no square ever passes. */
  lemma DivisorIsProper(n: nat, i: nat)
    requires n < UINT && WithinReach(n, i) && NarrowProduct(i, i) <= n && n % i == 0
    ensures !(IsPrime(n) && n < UINT - 7)
  {
    StopSquare();
    if n < 0xFFFF * 0xFFFF {
      Monotone(i, 0xFFFF);
      assert i < i * i;
    }
    if n < UINT - 7 { assert 2 <= i < n; }
  }

  lemma NextReach(n: nat, i: nat)
    requires n < UINT && n % 2 == 1 && WithinReach(n, i) && NarrowProduct(i, i) <= n && n % i != 0
    ensures WithinReach(n, i + 2) && (i + 2) % UINT == i + 2
  {
    StopSquare();
    if n < 0xFFFF * 0xFFFF { Monotone(i, 0xFFFF); }
    assert n % n == 0;
  }

  /** When the loop ends the answer is right, and that it ends shows that some square passes the number. */
  lemma NarrowEnd(n: nat, i: nat)
    requires n >= 2 && i >= 3 && i % 2 == 1 && NoneBelow(n, i) && NarrowProduct(i, i) > n
    ensures IsPrime(n) && n < UINT - 7
  {
    OddSquare(i);
    assert NarrowProduct(i, i) <= i * i;
    UpToTheRoot(n, i);
  }

  /** is_prime with a 32-bit unsigned long: the loop still ends, and it answers true exactly for the primes below
      2^32 - 7; for a larger prime no square passes the number, and the loop runs on to the number itself. */
  method TestPrimeNarrow(num: nat) returns (result: bool)
    requires num < 0x1_0000_0000
    ensures result <==> IsPrime(num) && num < 0x1_0000_0000 - 7
  {
    if num < 2 {
      return false;
    } else if num == 2 {
      return true;
    } else if num % 2 == 0 {
      return false;
    } else {
      var i := 3;
      FirstReach(num);
      while NarrowProduct(i, i) <= num
        invariant WithinReach(num, i) && NoneBelow(num, i)
        decreases num - i
      {
        if num % i == 0 {
          DivisorIsProper(num, i);
          return false;
        }
        NextOdd(num, i);
        NextReach(num, i);
        i := (i + 2) % UINT;
      }
      NarrowEnd(num, i);
      return true;
    }
  }
}
