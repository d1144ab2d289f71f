/**
 * What the bytes of a number are, one by one: of fixed-width words in either byte order, and of the groups of seven bits
 * in a varint. Everything here is said in divisions and remainders, for writers and for readers.
 */
module WordBytes {
  import opened Wire
  import opened Varints

  /**
   * Byte k of x, counted from the least significant one. Division rounds down, so the bytes of a negative number are
   * those of its two's complement.
   */
  function ByteOf(x: int, k: nat): byte { x / Pow2(8 * k) % 0x100 }

  /** The k-th group of seven bits. */
  function SevenOf(x: nat, k: nat): nat { x / Pow2(7 * k) % 0x80 }

  lemma DivDiv(x: int, a: nat, b: nat)
    requires a > 0 && b > 0
    ensures a * b > 0 && x / (a * b) == x / a / b
  {
    var q, r := x / a, x % a;
    var q', r' := q / b, q % b;
    assert x == (q' * b + r') * a + r == q' * (a * b) + (r' * a + r);
    LowDigitFits(a, b, r');
    assert r' * a >= 0;
    DivUnique(x, a * b, q', r' * a + r);
  }

  // ---------------------------------------------------------- fixed-width words

  lemma ByteOfNext(x: int, k: nat)
    ensures ByteOf(x, k + 1) == ByteOf(x / 0x100, k)
  {
    Pow2Adds(8, 8 * k);
    Pow2Byte();
    assert 8 * (k + 1) == 8 + 8 * k;
    DivDiv(x, 0x100, Pow2(8 * k));
  }

  lemma ByteOfFirst(x: int)
    ensures ByteOf(x, 0) == x % 0x100
  {
  }

  /** The k-th byte written is the k-th byte of the number. */
  lemma {:induction false} LittleBytesAt(n: nat, x: nat, k: nat)
    requires k < n
    ensures LittleBytes(n, x)[k] == ByteOf(x, k)
  {
    if k > 0 {
      LittleBytesAt(n - 1, x / 0x100, k - 1);
      ByteOfNext(x, k - 1);
    }
  }

  /** The k-th byte of the number read is the k-th byte that is there. */
  lemma {:induction false} LittleValueAt(s: Bytes, k: nat)
    requires k < |s|
    ensures ByteOf(LittleValue(s), k) == s[k]
  {
    var v := LittleValue(s[1..]);
    DivUnique(s[0] + 0x100 * v, 0x100, v, s[0]);
    if k > 0 {
      LittleValueAt(s[1..], k - 1);
      ByteOfNext(LittleValue(s), k - 1);
    }
  }

  lemma SameByte(x: int, p: nat, q: nat)
    requires p > 0 && q > 0
    ensures p * (0x100 * q) > 0 && x % (p * (0x100 * q)) / p % 0x100 == x / p % 0x100
  {
    var big := p * (0x100 * q);
    assert big == 0x100 * (p * q) && p * q > 0;
    var m, r := x / big, x % big;
    assert x == m * big + r;
    assert m * big == (m * (0x100 * q)) * p;
    DivUnique(x, p, m * (0x100 * q) + r / p, r % p);
    var d := r / p;
    assert m * (0x100 * q) + d == (m * q + d / 0x100) * 0x100 + d % 0x100;
    DivUnique(m * (0x100 * q) + d, 0x100, m * q + d / 0x100, d % 0x100);
  }

  /** The word of n bytes that a number is converted to has the number's bytes. */
  lemma ByteOfWord(n: nat, x: int, k: nat)
    requires k < n
    ensures ByteOf(ToWord(8 * n, x), k) == ByteOf(x, k)
  {
    hide Pow2;
    Pow2Adds(8 * k, 8 * (n - k));
    Pow2Adds(8, 8 * (n - k - 1));
    Pow2Byte();
    assert 8 * n == 8 * k + 8 * (n - k) && 8 * (n - k) == 8 + 8 * (n - k - 1);
    SameByte(x, Pow2(8 * k), Pow2(8 * (n - k - 1)));
  }

  /** n bytes, each of the bits of x at its place: the least significant first, or last. */
  predicate LowFirst(n: nat, x: int, s: Bytes)
  {
    |s| == n && forall k | 0 <= k < n :: s[k] == x / Pow2(8 * k) % 0x100
  }

  predicate HighFirst(n: nat, x: int, s: Bytes)
  {
    |s| == n && forall k | 0 <= k < n :: s[k] == x / Pow2(8 * (n - 1 - k)) % 0x100
  }

  lemma LittleWritten(n: nat, x: int)
    ensures LowFirst(n, x, LittleBytes(n, ToWord(8 * n, x)))
  {
    forall k | 0 <= k < n ensures LittleBytes(n, ToWord(8 * n, x))[k] == x / Pow2(8 * k) % 0x100 {
      LittleBytesAt(n, ToWord(8 * n, x), k);
      ByteOfWord(n, x, k);
      assert ByteOf(x, k) == x / Pow2(8 * k) % 0x100;
    }
  }

  /** The bytes that LowFirst describes. */
  function LowBytes(n: nat, x: int): (s: Bytes)
    ensures LowFirst(n, x, s)
  {
    LittleWritten(n, x);
    LittleBytes(n, ToWord(8 * n, x))
  }

  lemma BigWritten(n: nat, x: int)
    ensures HighFirst(n, x, Reverse(LittleBytes(n, ToWord(8 * n, x))))
  {
    var s := LittleBytes(n, ToWord(8 * n, x));
    LittleWritten(n, x);
    forall k | 0 <= k < n ensures Reverse(s)[k] == x / Pow2(8 * (n - 1 - k)) % 0x100 {
      ReverseAt(s, k);
    }
  }

  lemma LittleRead(s: Bytes)
    ensures LowFirst(|s|, LittleValue(s), s)
  {
    forall k | 0 <= k < |s| ensures s[k] == LittleValue(s) / Pow2(8 * k) % 0x100 {
      LittleValueAt(s, k);
      assert ByteOf(LittleValue(s), k) == LittleValue(s) / Pow2(8 * k) % 0x100;
    }
  }

  /** The bytes tell a number below 2^(8n), and a signed one as well: there is one of either. */
  lemma {:induction false} LittleTells(n: nat, x: nat, y: nat, s: Bytes)
    requires LowFirst(n, x, s) && LowFirst(n, y, s) && x < Pow2(8 * n) && y < Pow2(8 * n)
    ensures x == y
  {
    if n > 0 {
      assert s[0] == x / Pow2(8 * 0) % 0x100;
      Pow2Adds(8, 8 * (n - 1));
      Pow2Byte();
      forall k | 0 <= k < n - 1
        ensures s[1..][k] == x / 0x100 / Pow2(8 * k) % 0x100 && s[1..][k] == y / 0x100 / Pow2(8 * k) % 0x100
      {
        ByteOfNext(x, k);
        ByteOfNext(y, k);
        assert s[k + 1] == ByteOf(x, k + 1) == ByteOf(y, k + 1);
      }
      LittleTells(n - 1, x / 0x100, y / 0x100, s[1..]);
    }
  }

  // ----------------------------------------------------------------- varints

  lemma SevenOfNext(x: nat, k: nat)
    ensures SevenOf(x, k + 1) == SevenOf(x / 0x80, k)
  {
    Pow2Adds(7, 7 * k);
    Pow2Byte();
    assert 7 * (k + 1) == 7 + 7 * k;
    DivDiv(x, 0x80, Pow2(7 * k));
  }

  lemma Below(x: nat, p: nat)
    ensures x < 0x80 * p <==> x / 0x80 < p
  {
  }

  lemma PowStep(x: nat, n: nat)
    requires n > 0
    ensures x < Pow2(7 * n) <==> x / 0x80 < Pow2(7 * (n - 1))
  {
    Pow2Adds(7, 7 * (n - 1));
    Pow2Byte();
    hide Pow2;
    assert 7 * n == 7 + 7 * (n - 1);
    Below(x, Pow2(7 * (n - 1)));
  }

  lemma VaruintSize(x: nat, n: nat)
    requires n >= 1 && x >= 0x80 && x / 0x80 < Pow2(7 * n) && (n > 1 ==> x / 0x80 >= Pow2(7 * (n - 1)))
    ensures x < Pow2(7 * (n + 1)) && x >= Pow2(7 * n)
  {
    PowStep(x, n + 1);
    PowStep(x, n);
    Pow2Byte();
  }

  lemma {:induction false} VaruintLength(x: nat)
    ensures var n := |Varuint(x)|; x < Pow2(7 * n) && (n > 1 ==> x >= Pow2(7 * (n - 1)))
  {
    if x < 0x80 {
      Pow2Byte();
    } else {
      hide Pow2;
      VaruintLength(x / 0x80);
      VaruintSize(x, |Varuint(x / 0x80)|);
    }
  }

  lemma {:induction false} VaruintAt(x: nat, k: nat)
    requires k < |Varuint(x)|
    ensures Varuint(x)[k] == SevenOf(x, k) + if k + 1 < |Varuint(x)| then 0x80 else 0
  {
    if k == 0 {
      assert Pow2(7 * 0) == 1;
    } else {
      VaruintAt(x / 0x80, k - 1);
      SevenOfNext(x, k - 1);
    }
  }

  /**
   * What is written for an unsigned number: its groups of seven bits, the least significant first, with the top bit set in
   * all bytes but the last; and no more bytes than it takes.
   */
  lemma VaruintBytes(x: nat)
    ensures var s := Varuint(x);
      && (forall k | 0 <= k < |s| :: s[k] == x / Pow2(7 * k) % 0x80 + if k + 1 < |s| then 0x80 else 0)
      && x < Pow2(7 * |s|) && (|s| > 1 ==> x >= Pow2(7 * (|s| - 1)))
  {
    VaruintLength(x);
    forall k | 0 <= k < |Varuint(x)|
      ensures Varuint(x)[k] == x / Pow2(7 * k) % 0x80 + if k + 1 < |Varuint(x)| then 0x80 else 0
    {
      VaruintAt(x, k);
      assert SevenOf(x, k) == x / Pow2(7 * k) % 0x80;
    }
  }

  lemma {:induction false} DigitSumAt(group: Bytes, k: nat)
    requires k < |group|
    ensures SevenOf(DigitSum(group), k) == group[k] % 0x80
  {
    var v := DigitSum(group[1..]);
    DivUnique(group[0] % 0x80 + 0x80 * v, 0x80, v, group[0] % 0x80);
    if k > 0 {
      DigitSumAt(group[1..], k - 1);
      SevenOfNext(DigitSum(group), k - 1);
    }
  }

  lemma {:induction false} DigitSumBound(group: Bytes)
    ensures DigitSum(group) < Pow2(7 * |group|)
  {
    if group != [] {
      DigitSumBound(group[1..]);
      DivUnique(DigitSum(group), 0x80, DigitSum(group[1..]), group[0] % 0x80);
      PowStep(DigitSum(group), |group|);
    }
  }

  /**
   * What is read from an input with its first byte below 0x80 at k, within the limit: the number whose groups of seven bits
   * are the low bits of the bytes up to there; and what comes behind them is left.
   */
  lemma DigitsBytes(s: Bytes, k: nat, limit: nat)
    requires k < limit && k < |s| && s[k] < 0x80 && forall j | 0 <= j < k :: s[j] >= 0x80
    ensures Digits(s, limit).Ok? && Digits(s, limit).rest == s[k + 1..]
    ensures var x := Digits(s, limit).value;
      x < Pow2(7 * (k + 1)) && forall j | 0 <= j <= k :: x / Pow2(7 * j) % 0x80 == s[j] % 0x80
  {
    DigitsOfTerminated(s, k, limit);
    var group := s[..k + 1];
    DigitSumBound(group);
    forall j | 0 <= j <= k ensures DigitSum(group) / Pow2(7 * j) % 0x80 == s[j] % 0x80 {
      DigitSumAt(group, j);
      assert SevenOf(DigitSum(group), j) == DigitSum(group) / Pow2(7 * j) % 0x80;
    }
  }
}
