/** Bitsets of a fixed size, of any number of bits, sent as one variable-length integer. */
module Bitsets {
  import opened Wire
  import opened Varints
  import opened WordBytes

  // ---------------------------------------------------------- bits of an integer

  predicate BitAt(x: nat, i: nat)
  {
    if i == 0 then x % 2 == 1 else BitAt(x / 2, i - 1)
  }

  /** big.Int.SetBit. */
  function SetBit(x: nat, i: nat, on: bool): nat
  {
    if i == 0 then x - x % 2 + (if on then 1 else 0) else x % 2 + 2 * SetBit(x / 2, i - 1, on)
  }

  lemma HalfThenRest(x: nat, i: nat)
    ensures x / Pow2(i + 1) == x / 2 / Pow2(i)
  {
    DivDiv(x, 2, Pow2(i));
  }

  /** A bit is the binary digit with its number. */
  lemma {:induction false} BitIsDigit(x: nat, i: nat)
    ensures BitAt(x, i) <==> x / Pow2(i) % 2 == 1
  {
    if i > 0 {
      BitIsDigit(x / 2, i - 1);
      HalfThenRest(x, i - 1);
    }
  }

  /** Setting a bit puts another digit in the place of that with its number, and changes nothing else of the number. */
  lemma {:induction false} SetBitIsDigit(x: nat, i: nat, on: bool)
    ensures SetBit(x, i, on) ==
            x - (if x / Pow2(i) % 2 == 1 then Pow2(i) else 0) + (if on then Pow2(i) else 0)
  {
    if i > 0 {
      SetBitIsDigit(x / 2, i - 1, on);
      HalfThenRest(x, i - 1);
    }
  }

  lemma {:induction false} SetBitSetsOne(x: nat, i: nat, on: bool, j: nat)
    ensures BitAt(SetBit(x, i, on), j) == if i == j then on else BitAt(x, j)
  {
    if i > 0 && j > 0 {
      SetBitSetsOne(x / 2, i - 1, on, j - 1);
    }
  }

  lemma {:induction false} SetBitStaysBelow(x: nat, i: nat, on: bool, size: nat)
    requires i < size && x < Pow2(size)
    ensures SetBit(x, i, on) < Pow2(size)
  {
    if i > 0 {
      SetBitStaysBelow(x / 2, i - 1, on, size - 1);
    }
  }

  /** bits.Len8: how many bits a byte takes. */
  function Len8(b: nat): nat
  {
    if b == 0 then 0 else 1 + Len8(b / 2)
  }

  lemma {:induction false} Len8Bounds(b: nat, n: nat)
    ensures Len8(b) <= n <==> b < Pow2(n)
  {
    if b > 0 && n > 0 {
      Len8Bounds(b / 2, n - 1);
    }
  }

  // ------------------------------------------------------------------- on the wire

  /** A reader with room for so many bits more: a byte that does not fit in it, or no room at all, overflows. */
  function DecBits(room: int, s: Bytes): Parse<nat>
  {
    if room <= 0 then Err(BitsetOverflow)
    else if s == [] then Err(Overrun)
    else if Len8(s[0]) > room then Err(BitsetOverflow)
    else if s[0] < 0x80 then Ok(s[0], s[1..])
    else
      match DecBits(room - 7, s[1..])
      case Ok(high, rest) => Ok(s[0] - 0x80 + 0x80 * high, rest)
      case Err(e) => Err(e)
  }

  /** How many bytes a reader of so many bits takes at most. */
  function ByteLimit(size: int): nat { if size <= 0 then 0 else (size + 6) / 7 }

  /**
   * A reader accepts exactly the variable-length integers of at most size / 7 bytes, rounded up, with a value below
   * 2^size, and reads them as that value. It does not ask for the shortest form.
   */
  lemma {:induction false} AcceptsBelowSize(size: nat, s: Bytes)
    ensures var d := Digits(s, ByteLimit(size));
      && (DecBits(size, s).Ok? <==> d.Ok? && d.value < Pow2(size))
      && (DecBits(size, s).Ok? ==> DecBits(size, s) == d)
  {
    if size > 0 && s != [] {
      Len8Bounds(s[0], size);
      if s[0] >= 0x80 {
        Len8Bounds(s[0], 7);
        Pow2Byte();
        if size > 7 {
          AcceptsBelowSize(size - 7, s[1..]);
          Pow2Adds(7, size - 7);
          assert ByteLimit(size - 7) == ByteLimit(size) - 1;
        } else {
          assert ByteLimit(size) == 1;
        }
      }
    }
  }

  /**
   * Bitset round trip: every value below 2^size of a bitset with at least one bit is read back, and what follows it is
   * left. Of a bitset without bits the writer writes a byte, which the reader does not take.
   */
  lemma BitsetRoundTrip(size: nat, x: nat, t: Bytes)
    requires x < Pow2(size)
    ensures size > 0 ==> DecBits(size, Varuint(x) + t) == Ok(x, t)
    ensures size == 0 ==> DecBits(size, Varuint(x) + t) == Err(BitsetOverflow)
  {
    if size > 0 {
      var limit := ByteLimit(size);
      Pow2Monotone(size, 7 * limit);
      DigitsOfVaruint(x, limit, t);
      AcceptsBelowSize(size, Varuint(x) + t);
    }
  }

  // ------------------------------------------------------------------ as it runs

  /** The word list of a big.Int: without words for zero, and the lowest word first otherwise. */
  function Words(u: nat): (ws: seq<nat>)
    ensures ws == [] <==> u == 0
    ensures u > 0 ==> ws[0] % 0x100 == u % 0x100
  {
    if u == 0 then [] else
      LowByte(u);
      [u % 0x1_0000_0000_0000_0000] + Words(u / 0x1_0000_0000_0000_0000)
  }

  lemma LowByte(u: nat)
    ensures u % 0x1_0000_0000_0000_0000 % 0x100 == u % 0x100
  {
    var w := u % 0x1_0000_0000_0000_0000;
    DivUnique(u, 0x100, 0x100_0000_0000_0000 * (u / 0x1_0000_0000_0000_0000) + w / 0x100, w % 0x100);
  }

  class Bitset {
    const size: nat
    var bits: nat

    predicate Valid()
      reads this
    {
      bits < Pow2(size)
    }

    /** NewBitset. */
    constructor (size: nat)
      ensures Valid() && this.size == size && bits == 0
    {
      this.size, bits := size, 0;
    }

    /** Set. An index outside the bitset panics, and changes nothing. */
    method Set(i: int) returns (ok: bool)
      requires Valid()
      modifies this
      ensures Valid() && (ok <==> 0 <= i < size)
      ensures forall j: nat :: BitAt(bits, j) <==> (ok && i == j) || BitAt(old(bits), j)
      ensures !ok ==> bits == old(bits)
    {
      ok := 0 <= i < size;
      if ok {
        Assign(i, true);
      }
    }

    /** Unset. */
    method Unset(i: int) returns (ok: bool)
      requires Valid()
      modifies this
      ensures Valid() && (ok <==> 0 <= i < size)
      ensures forall j: nat :: BitAt(bits, j) <==> !(ok && i == j) && BitAt(old(bits), j)
      ensures !ok ==> bits == old(bits)
    {
      ok := 0 <= i < size;
      if ok {
        Assign(i, false);
      }
    }

    method Assign(i: nat, on: bool)
      requires Valid() && i < size
      modifies this
      ensures Valid()
      ensures forall j: nat :: BitAt(bits, j) == if i == j then on else BitAt(old(bits), j)
    {
      SetBitStaysBelow(bits, i, on, size);
      forall j: nat ensures BitAt(SetBit(bits, i, on), j) == if i == j then on else BitAt(bits, j) {
        SetBitSetsOne(bits, i, on, j);
      }
      bits := SetBit(bits, i, on);
    }

    /** Load. None stands for the panic. */
    method Load(i: int) returns (on: Option<bool>)
      ensures on == if 0 <= i < size then Some(BitAt(bits, i)) else None
    {
      on := if 0 <= i < size then Some(BitAt(bits, i)) else None;
    }

    /** Writer.Bitset. The first word is looked at only where there is one. */
    method Write(buf: Buffer, size: int) returns (err: Option<Error>)
      modifies buf
      ensures err == if this.size == size then None else Some(InvalidValue)
      ensures err == None ==> buf.data == old(buf.data) + Varuint(bits)
    {
      if this.size != size {
        return Some(InvalidValue);
      }
      err := None;
      var u := bits;
      if |Words(u)| == 0 {
        buf.WriteByte(0);
        return;
      }
      while u >= 0x80
        invariant u > 0 && buf.data + Varuint(u) == old(buf.data) + Varuint(bits)
      {
        ContinuationByte(u);
        assert buf.data + Varuint(u) == buf.data + [u % 0x80 + 0x80] + Varuint(u / 0x80);
        buf.WriteByte(BitOr(Words(u)[0] % 0x100, 0x80));
        u := u / 0x80;
      }
      buf.WriteByte(Words(u)[0] % 0x100);
    }
  }

  /** The value of the bits read so far, and of those still to come. */
  function BitsFrom(v: nat, i: nat, p: Parse<nat>): Parse<nat>
  {
    match p
    case Ok(high, rest) => Ok(v + high * Pow2(i), rest)
    case Err(e) => Err(e)
  }

  lemma RoundOfBits(v: nat, i: nat, room: int, s: Bytes)
    requires room > 0 && s != [] && Len8(s[0]) <= room && v < Pow2(i)
    ensures BitOr(v, s[0] % 0x80 * Pow2(i)) == v + s[0] % 0x80 * Pow2(i) < Pow2(i + 7)
    ensures s[0] < 0x80 ==> BitsFrom(v, i, DecBits(room, s)) == Ok(v + s[0] % 0x80 * Pow2(i), s[1..])
    ensures s[0] >= 0x80 ==> BitsFrom(v, i, DecBits(room, s)) ==
                             BitsFrom(v + s[0] % 0x80 * Pow2(i), i + 7, DecBits(room - 7, s[1..]))
  {
    hide BitOr, Len8, Pow2;
    LowBits(s[0]);
    OrAboveAdds(v, s[0] % 0x80, i);
    DigitFits(v, s[0] % 0x80, i);
    if s[0] >= 0x80 && DecBits(room - 7, s[1..]).Ok? {
      var high := DecBits(room - 7, s[1..]).value;
      DigitStep(v, s[0] - 0x80, i, high);
      assert high * Pow2(i + 7) == Pow2(i + 7) * high;
      assert (s[0] - 0x80 + 0x80 * high) * Pow2(i) == Pow2(i) * (s[0] - 0x80 + 0x80 * high);
    }
  }

  /** Reader.Bitset. What is read fits the size. */
  method ReadBitset(buf: Buffer, size: nat) returns (r: Read<Bitset>)
    modifies buf
    ensures match DecBits(size, old(buf.data))
            case Ok(v, rest) => r.Done? && r.value.Valid() && r.value.size == size && r.value.bits == v && buf.data == rest
            case Err(e) => r == Failed(e)
  {
    hide BitOr, Len8;
    var x := new Bitset(size);
    var v: nat, i: nat := 0, 0;
    if DecBits(size, buf.data).Ok? { assert BitsFrom(0, 0, DecBits(size, buf.data)) == DecBits(size, buf.data); }
    while i < size
      invariant v < Pow2(i)
      invariant BitsFrom(v, i, DecBits(size - i, buf.data)) == DecBits(size, old(buf.data))
      decreases size - i
    {
      var b := buf.ReadByte();
      if b == None {
        return Failed(Overrun);
      }
      if i + Len8(b.value) > size {
        return Failed(BitsetOverflow);
      }
      RoundOfBits(v, i, size - i, [b.value] + buf.data);
      assert ([b.value] + buf.data)[1..] == buf.data;
      v := BitOr(v, b.value % 0x80 * Pow2(i));
      if b.value < 0x80 {
        AcceptsBelowSize(size, old(buf.data));
        x.bits := v;
        return Done(x);
      }
      i := i + 7;
    }
    r := Failed(BitsetOverflow);
  }
}
