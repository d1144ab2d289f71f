/**
 * The 7-bit variable-length integers: unsigned as in LEB128 (section 7.6 of DWARF version 5) and signed through a
 * zigzag, at 32 and 64 bits.
 */
module Varints {
  import opened Wire

  datatype Width = W32 | W64 {
    function Bits(): nat { if W32? then 32 else 64 }
    /** The most bytes a reader takes: the loops run while the shift is below 35 or 70. */
    function Limit(): nat { if W32? then 5 else 10 }
  }

  predicate Unsigned(w: Width, x: int) { 0 <= x < Pow2(w.Bits()) }

  // ----------------------------------------------------------- specification

  function Varuint(x: nat): (s: Bytes)
    ensures |s| >= 1
  {
    if x < 0x80 then [x] else [x % 0x80 + 0x80] + Varuint(x / 0x80)
  }

  /** The first group of bytes that ends with a byte below 0x80, read as base-128 digits, least significant first. */
  function Digits(s: Bytes, limit: nat): Parse<nat>
  {
    if limit == 0 then Err(VarintTooLong)
    else if s == [] then Err(Overrun)
    else if s[0] < 0x80 then Ok(s[0], s[1..])
    else
      match Digits(s[1..], limit - 1)
      case Ok(high, rest) => Ok(s[0] - 0x80 + 0x80 * high, rest)
      case Err(e) => Err(e)
  }

  /** The value cut to a word of the given width. */
  function Cut(bits: nat, p: Parse<nat>): Parse<nat>
  {
    match p
    case Ok(v, rest) => Ok(v % Pow2(bits), rest)
    case Err(e) => Err(e)
  }

  /** What every reader of an unsigned varint returns: the digit sum, cut to the width of the word. */
  function ReadVaruint(w: Width, s: Bytes): Parse<nat>
  {
    Cut(w.Bits(), Digits(s, w.Limit()))
  }

  function ZigZag(x: int): nat { if x < 0 then -2 * x - 1 else 2 * x }

  function UnZigZag(u: nat): int { if u % 2 == 1 then -(u / 2) - 1 else u / 2 }

  function Varint(x: int): Bytes { Varuint(ZigZag(x)) }

  function ReadVarint(w: Width, s: Bytes): Parse<int>
  {
    match ReadVaruint(w, s)
    case Ok(u, rest) => Ok(UnZigZag(u), rest)
    case Err(e) => Err(e)
  }

  // ------------------------------------------------------------------ lemmas

  lemma {:induction false} DigitsOfVaruint(x: nat, limit: nat, t: Bytes)
    requires limit > 0 && x < Pow2(7 * limit)
    ensures Digits(Varuint(x) + t, limit) == Ok(x, t)
  {
    var s := Varuint(x) + t;
    if x < 0x80 {
      assert s[1..] == t;
    } else {
      assert s[1..] == Varuint(x / 0x80) + t;
      Pow2Byte();
      if limit == 1 {
        assert false;
      }
      Pow2Adds(7, 7 * (limit - 1));
      DigitsOfVaruint(x / 0x80, limit - 1, t);
    }
  }

  lemma WidthFits(w: Width)
    ensures Pow2(w.Bits()) <= Pow2(7 * w.Limit())
  {
    if w == W32 { Pow2Adds(32, 3); } else { Pow2Adds(64, 6); }
  }

  /** Writing an unsigned word and reading it back is the identity, and leaves whatever follows it. */
  lemma VaruintRoundTrip(w: Width, x: nat, t: Bytes)
    requires Unsigned(w, x)
    ensures ReadVaruint(w, Varuint(x) + t) == Ok(x, t)
  {
    WidthFits(w);
    DigitsOfVaruint(x, w.Limit(), t);
    SmallMod(x, Pow2(w.Bits()));
  }

  /** Zigzag and its inverse are a bijection between the signed and the unsigned words of one width. */
  lemma ZigZagBijection(w: Width, x: int, u: nat)
    requires Signed(w.Bits(), x) && Unsigned(w, u)
    ensures Unsigned(w, ZigZag(x)) && UnZigZag(ZigZag(x)) == x
    ensures Signed(w.Bits(), UnZigZag(u)) && ZigZag(UnZigZag(u)) == u
  {
    var half := Pow2(w.Bits() - 1);
    assert Pow2(w.Bits()) == 2 * half;
    ZigZagFits(half, x, u);
  }

  lemma ZigZagFits(half: nat, x: int, u: nat)
    requires 0 - half <= x < half && u < 2 * half
    ensures ZigZag(x) < 2 * half && UnZigZag(ZigZag(x)) == x
    ensures 0 - half <= UnZigZag(u) < half && ZigZag(UnZigZag(u)) == u
  {
  }

  lemma VarintRoundTrip(w: Width, x: int, t: Bytes)
    requires Signed(w.Bits(), x)
    ensures ReadVarint(w, Varint(x) + t) == Ok(x, t)
  {
    ZigZagBijection(w, x, 0);
    VaruintRoundTrip(w, ZigZag(x), t);
  }

  /** What is written for a signed word is read as twice a number that is not negative, and as -2x - 1 of one that is. */
  lemma SignedIsRead(w: Width, x: int, t: Bytes)
    requires Signed(w.Bits(), x)
    ensures Digits(Varint(x) + t, if w.W32? then 5 else 10) == Ok(if x >= 0 then 2 * x else -2 * x - 1, t)
  {
    ZigZagBijection(w, x, 0);
    WidthFits(w);
    DigitsOfVaruint(ZigZag(x), w.Limit(), t);
  }

  /** The number that a digit sum stands for, cut to the word: half of an even one, -(u / 2) - 1 of an odd one. */
  lemma SignedOfDigits(w: Width, s: Bytes)
    ensures ReadVarint(w, s) ==
      match Digits(s, if w.W32? then 5 else 10)
      case Err(e) => Err(e)
      case Ok(v, rest) =>
        var u := v % if w.W32? then 0x1_0000_0000 else 0x1_0000_0000_0000_0000;
        Ok(if u % 2 == 0 then u / 2 else -(u / 2) - 1, rest)
  {
    Pow2Values();
  }

  /** No input that reads as x is shorter than the bytes written for x, and those number at most 5 or 10. */
  lemma {:induction false} VaruintMinimal(s: Bytes, limit: nat)
    requires Digits(s, limit).Ok?
    ensures var r := Digits(s, limit);
      |Varuint(r.value)| <= |s| - |r.rest| <= limit && s[|s| - |r.rest|..] == r.rest
  {
    if s[0] >= 0x80 {
      VaruintMinimal(s[1..], limit - 1);
    }
  }

  /** Among the inputs that read as a word in full, without losing bits, the written one is the shortest. */
  lemma WrittenVaruintIsShortest(w: Width, x: nat, s: Bytes)
    requires Unsigned(w, x)
    requires Digits(s, w.Limit()).Ok? && Digits(s, w.Limit()).value == x
    ensures |Varuint(x)| <= |s| - |Digits(s, w.Limit()).rest| <= w.Limit()
  {
    VaruintMinimal(s, w.Limit());
  }

  lemma {:induction false} DigitsPrefix(s: Bytes, limit: nat, t: Bytes)
    requires Digits(s, limit).Ok?
    ensures Digits(s + t, limit) == Ok(Digits(s, limit).value, Digits(s, limit).rest + t)
    ensures |Digits(s, limit).rest| < |s|
  {
    if s[0] < 0x80 {
      assert (s + t)[1..] == s[1..] + t;
    } else {
      DigitsPrefix(s[1..], limit - 1, t);
      assert (s + t)[1..] == s[1..] + t;
    }
  }

  /** The low seven bits of each byte as base-128 digits, least significant first. */
  function DigitSum(group: Bytes): nat
  {
    if group == [] then 0 else group[0] % 0x80 + 0x80 * DigitSum(group[1..])
  }

  predicate FirstTerminator(s: Bytes, k: nat)
  {
    k < |s| && s[k] < 0x80 && forall j | 0 <= j < k :: s[j] >= 0x80
  }

  /** An input is read exactly when a byte below 0x80 comes within the byte limit, and then as its digit sum. */
  lemma {:induction false} DigitsOfTerminated(s: Bytes, k: nat, limit: nat)
    requires FirstTerminator(s, k)
    ensures k < limit ==> Digits(s, limit) == Ok(DigitSum(s[..k + 1]), s[k + 1..])
    ensures k >= limit ==> Digits(s, limit) == Err(VarintTooLong)
  {
    if limit > 0 && k > 0 {
      assert FirstTerminator(s[1..], k - 1) by {
        assert forall j | 0 <= j < k - 1 :: s[1..][j] == s[j + 1];
      }
      DigitsOfTerminated(s[1..], k - 1, limit - 1);
      assert s[1..][..k] == s[..k + 1][1..];
      assert s[1..][k..] == s[k + 1..];
    } else if limit > 0 {
      assert s[..1][1..] == [];
    }
  }

  /** An input without a terminating byte among the first bytes is not read: it ends too early, or the varint is too long. */
  lemma {:induction false} DigitsOfUnterminated(s: Bytes, limit: nat)
    requires forall j | 0 <= j < |s| && j < limit :: s[j] >= 0x80
    ensures Digits(s, limit) == Err(if |s| < limit then Overrun else VarintTooLong)
  {
    if limit > 0 && s != [] {
      assert forall j | 0 <= j < |s| - 1 && j < limit - 1 :: s[1..][j] == s[j + 1];
      DigitsOfUnterminated(s[1..], limit - 1);
    }
  }

  // ------------------------------------------------------- the loops of the code

  /** Bitwise or of two naturals, bit by bit. */
  function BitOr(a: nat, b: nat): nat
  {
    if a == 0 && b == 0 then 0
    else (if a % 2 == 1 || b % 2 == 1 then 1 else 0) + 2 * BitOr(a / 2, b / 2)
  }

  /** Or-ing in a digit above all the bits read so far adds it. */
  lemma {:induction false} OrAboveAdds(a: nat, d: nat, i: nat)
    requires a < Pow2(i)
    ensures BitOr(a, d * Pow2(i)) == a + d * Pow2(i)
  {
    if i == 0 {
      OrZero(d);
    } else {
      var p := Pow2(i - 1);
      assert d * Pow2(i) == 2 * (d * p);
      OrAboveAdds(a / 2, d, i - 1);
    }
  }

  lemma {:induction false} OrZero(d: nat)
    ensures BitOr(0, d) == d
  {
    if d > 0 { OrZero(d / 2); }
  }

  /** A left shift in a word of width bits. */
  function ShiftLeft(width: nat, x: nat, i: nat): (r: nat)
    ensures r < Pow2(width)
  {
    x * Pow2(i) % Pow2(width)
  }

  lemma {:induction false} OrTopBit(a: nat, i: nat)
    requires a < Pow2(i + 1)
    ensures BitOr(a, Pow2(i)) == a % Pow2(i) + Pow2(i)
  {
    if i == 0 {
      assert BitOr(a, 1) == 1 + 2 * BitOr(a / 2, 0);
    } else {
      OrTopBit(a / 2, i - 1);
      HalvedMod(a, Pow2(i - 1));
    }
  }

  lemma HalvedMod(a: nat, p: nat)
    requires p > 0
    ensures a % (2 * p) == 2 * (a / 2 % p) + a % 2
  {
    var h := a / 2;
    var q := h / p;
    assert h == q * p + h % p;
    assert a == q * (2 * p) + (2 * (h % p) + a % 2);
    DivUnique(a, 2 * p, q, 2 * (h % p) + a % 2);
  }

  /** byte(u) | 0x80 */
  lemma ContinuationByte(u: nat)
    ensures BitOr(u % 0x100, 0x80) == u % 0x80 + 0x80
  {
    Pow2Byte();
    OrTopBit(u % 0x100, 7);
    var r := u % 0x100;
    DivUnique(u, 0x80, 2 * (u / 0x100) + r / 0x80, r % 0x80);
  }

  /** One round of a reader's loop: the masked byte, shifted into place and cut to the word, is or-ed in. */
  lemma OrShiftedDigit(width: nat, v: nat, d: nat, i: nat)
    requires i < width && v < Pow2(i)
    ensures BitOr(v, ShiftLeft(width, d, i)) == (v + d * Pow2(i)) % Pow2(width)
  {
    hide BitOr, Pow2;
    var p, q := Pow2(i), Pow2(width - i);
    Pow2Adds(i, width - i);
    var low, high := d % q, d / q;
    LowDigitFits(p, q, low);
    assert d * p == high * (p * q) + low * p by {
      assert d == high * q + low;
      assert (high * q + low) * p == high * (p * q) + low * p;
    }
    DivUnique(d * p, p * q, high, low * p);
    OrAboveAdds(v, low, i);
    DivUnique(v + d * p, p * q, high, v + low * p);
  }

  lemma LowDigitFits(p: nat, q: nat, low: nat)
    requires low < q
    ensures low * p + p <= p * q
  {
    assert (q - low - 1) * p >= 0;
    assert p * q == low * p + p + (q - low - 1) * p;
  }

  method WriteVaruint(buf: Buffer, x: nat)
    modifies buf
    ensures buf.data == old(buf.data) + Varuint(x)
  {
    var u := x;
    while u >= 0x80
      invariant buf.data + Varuint(u) == old(buf.data) + Varuint(x)
    {
      ContinuationByte(u);
      var b: byte := BitOr(u % 0x100, 0x80);
      assert buf.data + Varuint(u) == buf.data + [b] + Varuint(u / 0x80);
      buf.WriteByte(b);
      u := u / 0x80;
    }
    buf.WriteByte(u);
  }

  /** Digits with the value of the digits before, which end at bit i. */
  function DigitsFrom(acc: nat, i: nat, s: Bytes, limit: nat): Parse<nat>
    decreases limit
  {
    if limit == 0 then Err(VarintTooLong)
    else if s == [] then Err(Overrun)
    else if s[0] < 0x80 then Ok(acc + s[0] * Pow2(i), s[1..])
    else DigitsFrom(acc + (s[0] - 0x80) * Pow2(i), i + 7, s[1..], limit - 1)
  }

  lemma {:induction false} DigitsFromAdds(acc: nat, i: nat, s: Bytes, limit: nat)
    ensures DigitsFrom(acc, i, s, limit) ==
            match Digits(s, limit)
            case Ok(h, rest) => Ok(acc + Pow2(i) * h, rest)
            case Err(e) => Err(e)
    decreases limit
  {
    hide Pow2;
    if limit == 0 || s == [] {
    } else if s[0] < 0x80 {
      assert acc + s[0] * Pow2(i) == acc + Pow2(i) * s[0];
    } else {
      DigitsFromAdds(acc + (s[0] - 0x80) * Pow2(i), i + 7, s[1..], limit - 1);
      if Digits(s[1..], limit - 1).Ok? {
        DigitStep(acc, s[0] - 0x80, i, Digits(s[1..], limit - 1).value);
      }
    }
  }

  lemma DigitsFromStart(s: Bytes, limit: nat)
    ensures DigitsFrom(0, 0, s, limit) == Digits(s, limit)
  {
    DigitsFromAdds(0, 0, s, limit);
  }

  lemma DigitStep(acc: nat, c: nat, i: nat, h: nat)
    ensures acc + Pow2(i) * (c + 0x80 * h) == acc + c * Pow2(i) + Pow2(i + 7) * h
  {
    Pow2Adds(7, i);
    Pow2Byte();
    var p := Pow2(i);
    assert p * (c + 0x80 * h) == c * p + (0x80 * p) * h;
  }

  lemma Pow2Monotone(i: nat, j: nat)
    requires i <= j
    ensures Pow2(i) <= Pow2(j)
  {
    Pow2Adds(i, j - i);
    MultipleIsLarge(Pow2(j - i), Pow2(i));
  }

  /** A value below 2^i with a digit put at bit i stays below 2^(i+7). */
  lemma DigitFits(v: nat, c: nat, i: nat)
    requires v < Pow2(i) && c < 0x80
    ensures v + c * Pow2(i) < Pow2(i + 7)
  {
    Pow2Adds(7, i);
    Pow2Byte();
    LowDigitFits(Pow2(i), 0x80, c);
  }

  lemma OrFits(bits: nat, v: nat, c: nat, i: nat)
    requires i + 7 <= bits && v < Pow2(i) && c < 0x80
    ensures BitOr(v, ShiftLeft(bits, c, i)) == v + c * Pow2(i) < Pow2(i + 7)
  {
    OrShiftedDigit(bits, v, c, i);
    DigitFits(v, c, i);
    Pow2Monotone(i + 7, bits);
    SmallMod(v + c * Pow2(i), Pow2(bits));
  }

  /** The accumulator after one round of a reader's loop at bit i. */
  function Accumulate(bits: nat, v: nat, b: byte, i: nat): nat
  {
    BitOr(v, ShiftLeft(bits, b % 0x80, i))
  }

  lemma LowBits(b: byte)
    ensures b % 0x80 == if b < 0x80 then b else b - 0x80
  {
  }

  /** One round of a reader's loop: what is or-ed in is added, whole unless this is the last round. */
  lemma Round(bits: nat, v: nat, i: nat, s: Bytes, limit: nat)
    requires s != [] && limit > 0 && i < bits && v < Pow2(i) && (limit > 1 ==> i + 7 < bits)
    ensures s[0] < 0x80 ==> Cut(bits, DigitsFrom(v, i, s, limit)) == Ok(Accumulate(bits, v, s[0], i), s[1..])
    ensures s[0] >= 0x80 ==> Cut(bits, DigitsFrom(v, i, s, limit)) ==
                             Cut(bits, DigitsFrom(Accumulate(bits, v, s[0], i), i + 7, s[1..], limit - 1))
    ensures s[0] >= 0x80 && limit > 1 ==> Accumulate(bits, v, s[0], i) < Pow2(i + 7)
  {
    if s[0] < 0x80 {
      LowBits(s[0]);
      OrShiftedDigit(bits, v, s[0], i);
    } else if limit > 1 {
      LowBits(s[0]);
      OrFits(bits, v, s[0] - 0x80, i);
    }
  }

  method ReadVaruintLoop(w: Width, buf: Buffer) returns (r: Read<nat>)
    modifies buf
    ensures Reads(ReadVaruint(w, old(buf.data)), r, buf.data) && buf.End() == old(buf.End())
  {
    var bits, v: nat, i: nat := w.Bits(), 0, 0;
    ghost var left := w.Limit();
    DigitsFromStart(buf.data, left);
    while i < 7 * w.Limit()
      invariant 0 <= left && i == 7 * (w.Limit() - left)
      invariant left > 0 ==> v < Pow2(i)
      invariant Cut(bits, DigitsFrom(v, i, buf.data, left)) == ReadVaruint(w, old(buf.data))
      invariant buf.End() == old(buf.End())
    {
      if buf.data != [] {
        Round(bits, v, i, buf.data, left);
      }
      var b := buf.ReadByte();
      if b == None {
        return Failed(Overrun);
      }
      v := Accumulate(bits, v, b.value, i);
      if b.value < 0x80 {
        return Done(v);
      }
      i, left := i + 7, left - 1;
    }
    r := Failed(VarintTooLong);
  }

  /** The word the code zigzags: shifted left once, and complemented for a negative value. */
  method ZigZagWord(w: Width, x: int) returns (ux: nat)
    requires Signed(w.Bits(), x)
    ensures ux == ZigZag(x)
  {
    var p := Pow2(w.Bits());
    assert p == 2 * Pow2(w.Bits() - 1);
    ux := ShiftLeft(w.Bits(), ToWord(w.Bits(), x), 1);
    assert Pow2(1) == 2;
    if x < 0 {
      DivUnique(x, p, -1, x + p);
      DivUnique(2 * (x + p), p, 1, 2 * x + p);
      ux := p - 1 - ux;
    } else {
      SmallMod(x, p);
      SmallMod(2 * x, p);
    }
  }

  method WriteVarint(w: Width, buf: Buffer, x: int)
    requires Signed(w.Bits(), x)
    modifies buf
    ensures buf.data == old(buf.data) + Varint(x)
    ensures Digits(buf.data[|old(buf.data)|..], if w.W32? then 5 else 10) == Ok(if x >= 0 then 2 * x else -2 * x - 1, [])
  {
    SignedIsRead(w, x, []);
    assert Varint(x) + [] == Varint(x);
    var ux := ZigZagWord(w, x);
    WriteVaruint(buf, ux);
    assert buf.data[|old(buf.data)|..] == Varint(x);
  }

  method ReadVarintLoop(w: Width, buf: Buffer) returns (r: Read<int>)
    modifies buf
    ensures Reads(ReadVarint(w, old(buf.data)), r, buf.data) && buf.End() == old(buf.End())
    ensures match Digits(old(buf.data), if w.W32? then 5 else 10)
            case Err(e) => r == Failed(e)
            case Ok(v, rest) =>
              var u := v % if w.W32? then 0x1_0000_0000 else 0x1_0000_0000_0000_0000;
              r == Done(if u % 2 == 0 then u / 2 else -(u / 2) - 1) && buf.data == rest
  {
    SignedOfDigits(w, buf.data);
    var u := ReadVaruintLoop(w, buf);
    if u.Failed? {
      return Failed(u.error);
    }
    // The word shifted right once fits the signed type; an odd word is complemented.
    var x: int := u.value / 2;
    if u.value % 2 != 0 {
      x := -x - 1;
    }
    r := Done(x);
  }
}
