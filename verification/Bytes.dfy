/** Little-endian byte strings, as emit_multibyte_value() writes them and as the
    interpreter reads them back. */
module Bytes {

  type byte = b: int | 0 <= b < 256

  function Pow256(k: nat): (p: nat)
    ensures p > 0
  {
    if k == 0 then 1 else 256 * Pow256(k - 1)
  }

  /** The k low-order bytes of n, least significant first.  Dafny's / and % round
      towards minus infinity for a positive divisor, as >> 8 and & 255 do. */
  function LE(n: int, k: nat): (s: seq<byte>)
    ensures |s| == k
    decreases k
  {
    if k == 0 then [] else [n % 256] + LE(n / 256, k - 1)
  }

  /** Byte i is the digit of weight 256 to the i. */
  lemma {:induction false} LEDigit(n: int, k: nat, i: nat)
    requires i < k
    ensures LE(n, k)[i] == n / Pow256(i) % 256
    decreases i
  {
    if i > 0 {
      LEDigit(n / 256, k - 1, i - 1);
      DivTwice(n, Pow256(i - 1));
    }
  }

  /** Dividing by 256 and then by p is dividing by 256 * p. */
  lemma DivTwice(n: int, p: int)
    requires p > 0
    ensures n / 256 / p == n / (256 * p)
  {
    var a, b := n / 256, n % 256;
    var q, r := a / p, a % p;
    assert n == 256 * (q * p + r) + b;
    assert 256 * (q * p) == q * (256 * p) by { MulSwap(q, p); }
    assert n == q * (256 * p) + (256 * r + b) && 0 <= 256 * r + b < 256 * p;
    QuotientIs(n, 256 * p, q, 256 * r + b);
  }

  lemma QuotientIs(n: int, d: int, q: int, r: int)
    requires n == q * d + r && 0 <= r < d
    ensures n / d == q
  {
    assert (n / d - q) * d == r - n % d by { Distribute(n / d, q, d); }
    NoMultiple(r - n % d, n / d - q, d);
    if n / d != q {
      NotZero(n / d - q, d);
    }
  }

  lemma NotZero(a: int, d: int)
    requires a != 0 && d > 0
    ensures a * d != 0
  {
    if a > 0 {
      MulMonotone(1, a, d);
    } else {
      MulMonotone(a, -1, d);
    }
  }

  function UnLE(s: seq<byte>): nat {
    if s == [] then 0 else s[0] + 256 * UnLE(s[1..])
  }

  /** Reading back what was written gives the value modulo the width. */
  lemma {:induction false} UnLEOfLE(n: int, k: nat)
    ensures 0 <= UnLE(LE(n, k)) < Pow256(k)
    ensures exists q: int :: n == UnLE(LE(n, k)) + q * Pow256(k)
    decreases k
  {
    if k == 0 {
      assert n == UnLE(LE(n, k)) + n * Pow256(k);
    } else {
      UnLEOfLE(n / 256, k - 1);
      var s := LE(n, k);
      assert s[1..] == LE(n / 256, k - 1);
      var q: int :| n / 256 == UnLE(LE(n / 256, k - 1)) + q * Pow256(k - 1);
      assert n == n % 256 + 256 * (n / 256);
      assert 256 * (q * Pow256(k - 1)) == q * Pow256(k) by {
        MulSwap(q, Pow256(k - 1));
      }
      assert n == UnLE(s) + q * Pow256(k);
    }
  }

  lemma MulSwap(q: int, p: int)
    ensures 256 * (q * p) == q * (256 * p)
  {
  }

  lemma NoMultiple(d: int, q: int, p: int)
    requires -p < d < p && d == q * p
    ensures d == 0
  {
    if q > 0 {
      MulMonotone(1, q, p);
    } else if q < 0 {
      MulMonotone(q, -1, p);
    }
  }

  lemma MulMonotone(a: int, b: int, p: int)
    requires a <= b && 0 <= p
    ensures a * p <= b * p
  {
  }

  /** Reading back gives the only value in range that differs by a multiple of the width. */
  lemma UnLEUnique(n: int, k: nat, m: int, r: int)
    requires n == m + r * Pow256(k) && 0 <= m < Pow256(k)
    ensures UnLE(LE(n, k)) == m
  {
    UnLEOfLE(n, k);
    var p := Pow256(k);
    var q: int :| n == UnLE(LE(n, k)) + q * p;
    assert UnLE(LE(n, k)) - m == (r - q) * p by {
      Distribute(r, q, p);
    }
    NoMultiple(UnLE(LE(n, k)) - m, r - q, p);
  }

  lemma Distribute(r: int, q: int, p: int)
    ensures (r - q) * p == r * p - q * p
  {
  }

  /** An unsigned value that fits its width survives the round trip. */
  lemma LERoundTrip(n: nat, k: nat)
    requires n < Pow256(k)
    ensures UnLE(LE(n, k)) == n
  {
    UnLEUnique(n, k, n, 0);
  }

  /** The two's complement reading of an unsigned value held in k bytes. */
  function Signed(u: nat, k: nat): int {
    if 2 * u >= Pow256(k) then u - Pow256(k) else u
  }

  /** A signed value survives the round trip exactly when it fits its width. */
  lemma SignedRoundTrip(n: int, k: nat)
    requires k > 0
    ensures var p: int := Pow256(k); Signed(UnLE(LE(n, k)), k) == n <==> -p <= 2 * n < p
  {
    var p: int := Pow256(k);
    UnLEOfLE(n, k);
    if -p <= 2 * n < 0 {
      UnLEUnique(n, k, n + p, -1);
    } else if 0 <= 2 * n < p {
      UnLEUnique(n, k, n, 0);
    }
  }
}
