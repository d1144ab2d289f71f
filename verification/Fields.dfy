/** The fields every packet is made of: bytes, fixed-width numbers, varints, strings, and counts of slices. */
module Fields {
  import opened Wire
  import opened Varints

  /**
   * A packet reader: what is left, the scratch buffer fixed-width numbers are read into, and whether one of them was cut
   * short by the end of the input. Such a read does not fail: it takes what is there, and leaves the rest of the scratch
   * buffer as it was.
   */
  datatype In = In(data: Bytes, scratch: Bytes, cut: bool) {
    predicate Valid() { |scratch| == 8 }
    function Append(t: Bytes): In { In(data + t, scratch, cut) }
    function At(rest: Bytes): In { In(rest, scratch, cut) }
  }

  const ZEROES: Bytes := [0, 0, 0, 0, 0, 0, 0, 0]

  /** NewReader. */
  function Start(data: Bytes): In { In(data, ZEROES, false) }

  datatype Out<+T> = Got(v: T, left: In) | Bad(error: Error) {
    predicate IsFailure() { Bad? }
    function PropagateFailure<U>(): Out<U>
      requires Bad?
    {
      Bad(error)
    }
    function Extract(): (T, In)
      requires Got?
    {
      (v, left)
    }
  }

  function Lift<T>(p: Parse<T>, i: In): Out<T>
  {
    match p
    case Ok(v, rest) => Got(v, i.At(rest))
    case Err(e) => Bad(e)
  }

  // -------------------------------------------------------- fixed-width numbers

  function ReadNumber(width: nat, i: In): Out<nat>
    requires width <= 8 && i.Valid()
  {
    if i.data == [] then Bad(Overrun)
    else
      var n := if |i.data| < width then |i.data| else width;
      var scratch := i.data[..n] + i.scratch[n..];
      Got(LittleValue(scratch[..width]), In(i.data[n..], scratch, i.cut || n < width))
  }

  function Number(width: nat, x: nat): (s: Bytes)
    ensures |s| == width
  {
    LittleBytes(width, x)
  }

  type Positive = x: nat | x > 0 witness 1

  /** A Go integer type. */
  datatype Int = Int(bits: Positive, signed: bool) {
    predicate Has(x: int)
    {
      if signed then Signed(bits, x) else 0 <= x < Pow2(bits)
    }
    /** A conversion to the type: the low bits, with a sign or without. */
    function Of(x: int): int
    {
      if signed then FromWord(bits, ToWord(bits, x)) else ToWord(bits, x)
    }
  }

  const I8 := Int(8, true)
  const U8 := Int(8, false)
  const I16 := Int(16, true)
  const U16 := Int(16, false)
  const I32 := Int(32, true)
  const U32 := Int(32, false)
  const I64 := Int(64, true)
  const U64 := Int(64, false)

  lemma OfHas(t: Int, x: int)
    ensures t.Has(t.Of(x)) && (t.Has(x) ==> t.Of(x) == x)
  {
    if t.Has(x) {
      if t.signed { WordRoundTrip(t.bits, x); } else { SmallMod(x, Pow2(t.bits)); }
    }
  }

  /** Both ways between types of the same width, nothing is lost. */
  lemma SameWidthKeeps(a: Int, b: Int, x: int)
    requires a.bits == b.bits && a.Has(x)
    ensures a.Of(b.Of(x)) == x
  {
    var p := Pow2(a.bits);
    if x < 0 {
      ModShift(x, p);
      SmallMod(x + p, p);
      if !b.signed { SmallMod(x + p, p); } else { WordRoundTrip(a.bits, x); }
    } else {
      SmallMod(x, p);
      if b.signed && x >= Pow2(b.bits - 1) {
        ModShift(x - p, p);
      }
    }
  }

  // ---------------------------------------------------------------------- strings

  /** checkRemaining and io.ReadFull: so many bytes, or an overrun. */
  function ReadBytes(n: int, i: In): Out<Bytes>
  {
    if n < 0 || n > |i.data| then Bad(Overrun) else Got(i.data[..n], i.At(i.data[n..]))
  }

  /** String and ByteSlice. */
  function ReadText(i: In): Out<Bytes>
  {
    match ReadVaruint(W32, i.data)
    case Err(e) => Bad(e)
    case Ok(n, rest) => if n > 0x7FFF_FFFF then Bad(StringTooLong) else ReadBytes(n, i.At(rest))
  }

  function Text(s: Bytes): Bytes { Varuint(|s|) + s }

  /** StringUTF. */
  function ReadShortText(i: In): Out<Bytes>
    requires i.Valid()
  {
    match ReadNumber(2, i)
    case Bad(e) => Bad(e)
    case Got(n, left) => ReadBytes(I16.Of(n), left)
  }

  function ShortText(s: Bytes): Bytes { Number(2, U16.Of(|s|)) + s }

  // ------------------------------------------------------------- write, then read

  lemma NumberRoundTrip(width: nat, x: nat, t: Bytes, i: In)
    requires 0 < width <= 8 && x < Pow2(8 * width) && i.Valid() && i.data == Number(width, x) + t
    ensures var r := ReadNumber(width, i);
      r.Got? && r.v == x && r.left.data == t && r.left.cut == i.cut && r.left.Valid()
  {
    var scratch := i.data[..width] + i.scratch[width..];
    assert scratch[..width] == Number(width, x) && i.data[width..] == t;
    LittleRoundTrip(width, x);
  }

  lemma TextRoundTrip(s: Bytes, t: Bytes, i: In)
    requires |s| <= 0x7FFF_FFFF && i.data == Text(s) + t
    ensures ReadText(i) == Got(s, i.At(t))
  {
    Pow2Values();
    assert Text(s) + t == Varuint(|s|) + (s + t);
    VaruintRoundTrip(W32, |s|, s + t);
    assert (s + t)[..|s|] == s && (s + t)[|s|..] == t;
  }

  lemma ShortTextRoundTrip(s: Bytes, t: Bytes, i: In)
    requires |s| <= 0x7FFF && i.Valid() && i.data == ShortText(s) + t
    ensures var r := ReadShortText(i);
      r.Got? && r.v == s && r.left.data == t && r.left.cut == i.cut && r.left.Valid()
  {
    assert ShortText(s) + t == Number(2, U16.Of(|s|)) + (s + t);
    SmallLengths(|s|);
    NumberRoundTrip(2, |s|, s + t, i);
    assert (s + t)[..|s|] == s && (s + t)[|s|..] == t;
  }

  lemma SmallLengths(n: nat)
    requires n <= 0x7FFF
    ensures U16.Of(n) == n && I16.Of(n) == n && n < Pow2(16)
  {
    Pow2Values();
    SmallMod(n, Pow2(16));
  }

  // ---------------------------------------------- reading depends on a prefix only

  /** A reader's outcome on a longer input: the same value, and the added bytes behind what was left. */
  predicate Prefixed<T(==)>(r: Out<T>, r': Out<T>, t: Bytes)
  {
    r.Got? && !r.left.cut ==> r' == Got(r.v, r.left.Append(t))
  }

  lemma NumberPrefix(width: nat, i: In, t: Bytes)
    requires width <= 8 && i.Valid()
    ensures Prefixed(ReadNumber(width, i), ReadNumber(width, i.Append(t)), t)
    ensures ReadNumber(width, i).Got? ==>
      var left := ReadNumber(width, i).left;
      left.Valid() && (i.cut ==> left.cut) && |left.data| <= |i.data| && (width > 0 ==> |left.data| < |i.data|)
  {
    if |i.data| >= width {
      assert (i.data + t)[..width] == i.data[..width] && (i.data + t)[width..] == i.data[width..] + t;
    }
  }

  lemma BytesPrefix(n: int, i: In, t: Bytes)
    ensures Prefixed(ReadBytes(n, i), ReadBytes(n, i.Append(t)), t)
  {
    if 0 <= n <= |i.data| {
      assert (i.data + t)[..n] == i.data[..n] && (i.data + t)[n..] == i.data[n..] + t;
    }
  }

  lemma VaruintPrefix(w: Width, s: Bytes, t: Bytes)
    ensures ReadVaruint(w, s).Ok? ==>
      ReadVaruint(w, s + t) == Ok(ReadVaruint(w, s).value, ReadVaruint(w, s).rest + t)
      && |ReadVaruint(w, s).rest| < |s|
  {
    if ReadVaruint(w, s).Ok? {
      DigitsPrefix(s, w.Limit(), t);
    }
  }

  lemma TextPrefix(i: In, t: Bytes)
    ensures Prefixed(ReadText(i), ReadText(i.Append(t)), t)
    ensures ReadText(i).Got? ==> |ReadText(i).left.data| < |i.data| && ReadText(i).left.cut == i.cut
    ensures ReadText(i).Got? ==> ReadText(i).left.scratch == i.scratch
  {
    VaruintPrefix(W32, i.data, t);
    if ReadVaruint(W32, i.data).Ok? {
      var n := ReadVaruint(W32, i.data);
      BytesPrefix(n.value, i.At(n.rest), t);
    }
  }

  lemma TextShorter(i: In)
    ensures var r := ReadText(i);
      r.Got? ==> |r.v| < |i.data| && |r.left.data| < |i.data| && r.left.cut == i.cut && r.left.scratch == i.scratch
  {
    VaruintPrefix(W32, i.data, []);
  }

  lemma ShortTextPrefix(i: In, t: Bytes)
    requires i.Valid()
    ensures Prefixed(ReadShortText(i), ReadShortText(i.Append(t)), t)
    ensures ReadShortText(i).Got? ==>
      var left := ReadShortText(i).left; left.Valid() && (i.cut ==> left.cut) && |left.data| < |i.data|
  {
    NumberPrefix(2, i, t);
    var n := ReadNumber(2, i);
    if n.Got? {
      BytesPrefix(I16.Of(n.v), n.left, t);
    }
  }

  /** The same value for a longer input, and what was added behind what was left. */
  predicate Same<T(==)>(r: Out<T>, r': Out<T>, t: Bytes)
  {
    r.Got? && r' == Got(r.v, r.left.Append(t))
  }

  /** A read takes some of the bytes that were only added. */
  predicate Takes<T(==)>(r': Out<T>, t: Bytes)
  {
    r'.Got? ==> |r'.left.data| < |t|
  }

  lemma NumberTakes(width: nat, i: In, t: Bytes)
    requires width <= 8 && i.Valid() && t != [] && 0 < |i.data| < width
    ensures Takes(ReadNumber(width, i.Append(t)), t)
  {
  }

  /**
   * A number that is read does not depend on what follows it exactly if the input holds all its bytes: otherwise every
   * further byte would have been part of it.
   */
  lemma NumberIndependentIff(width: nat, i: In)
    requires 0 < width <= 8 && i.Valid()
    ensures ReadNumber(width, i).Got? <==> i.data != []
    ensures |i.data| >= width ==> forall t :: Same(ReadNumber(width, i), ReadNumber(width, i.Append(t)), t)
    ensures 0 < |i.data| < width ==> forall t | t != [] :: !Same(ReadNumber(width, i), ReadNumber(width, i.Append(t)), t)
  {
    if |i.data| >= width {
      forall t ensures Same(ReadNumber(width, i), ReadNumber(width, i.Append(t)), t) {
        assert (i.data + t)[..width] == i.data[..width] && (i.data + t)[width..] == i.data[width..] + t;
      }
    } else if i.data != [] {
      forall t | t != [] ensures !Same(ReadNumber(width, i), ReadNumber(width, i.Append(t)), t) {
        NumberTakes(width, i, t);
      }
    }
  }
}
