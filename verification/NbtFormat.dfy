/** The four byte encodings of NBT: how integers, strings and integer arrays are laid out. */
module NbtFormat {
  import opened Wire
  import opened Varints
  import opened Endian

  const MAX_STRING := 0x7FFF
  const MAX_DEPTH := 512
  const MAX_NETWORK_OFFSET := 4 * 1024 * 1024

  datatype Encoding = NetworkLittleEndian | LittleEndian | NetworkBigEndian | BigEndian

  /** An encoding on a machine of one byte order: the two host builds differ in a corner of String. */
  datatype Format = Format(enc: Encoding, host: Order) {
    function Order(): Order
    {
      if enc.NetworkLittleEndian? || enc.LittleEndian? then Little else Big
    }
    predicate Varies() { enc.NetworkLittleEndian? }
  }

  // ---------------------------------------------------------------- integers

  function EncFixed(f: Format, width: nat, x: int): Bytes
  {
    ToFixed(f.Order(), width, ToWord(8 * width, x))
  }

  function DecWord(f: Format, width: nat, s: Bytes): Parse<nat>
  {
    match Take(width, s)
    case Ok(b, rest) => Ok(FromFixed(f.Order(), b), rest)
    case Err(e) => Err(e)
  }

  function DecFixed(f: Format, width: nat, s: Bytes): Parse<int>
    requires width > 0
  {
    match DecWord(f, width, s)
    case Ok(u, rest) => Ok(FromWord(8 * width, u), rest)
    case Err(e) => Err(e)
  }

  function EncInt(f: Format, w: Width, x: int): Bytes
  {
    if f.Varies() then Varint(x) else EncFixed(f, w.Bits() / 8, x)
  }

  function DecInt(f: Format, w: Width, s: Bytes): Parse<int>
  {
    if f.Varies() then ReadVarint(w, s) else DecFixed(f, w.Bits() / 8, s)
  }

  lemma WordRoundTrips(f: Format, width: nat, u: nat, t: Bytes)
    requires width > 0 && u < Pow2(8 * width)
    ensures DecWord(f, width, ToFixed(f.Order(), width, u) + t) == Ok(u, t)
  {
    TakeAppended(ToFixed(f.Order(), width, u), t);
    FixedRoundTrip(f.Order(), width, u);
  }

  lemma FixedIntRoundTrip(f: Format, width: nat, x: int, t: Bytes)
    requires width > 0 && Signed(8 * width, x)
    ensures DecFixed(f, width, EncFixed(f, width, x) + t) == Ok(x, t)
    ensures |EncFixed(f, width, x)| == width
  {
    WordRoundTrips(f, width, ToWord(8 * width, x), t);
    WordRoundTrip(8 * width, x);
  }

  lemma IntRoundTrip(f: Format, w: Width, x: int, t: Bytes)
    requires Signed(w.Bits(), x)
    ensures DecInt(f, w, EncInt(f, w, x) + t) == Ok(x, t)
    ensures |EncInt(f, w, x)| > 0
  {
    if f.Varies() {
      VarintRoundTrip(w, x, t);
    } else {
      FixedIntRoundTrip(f, w.Bits() / 8, x, t);
    }
  }

  /** An unsigned word of at most the full width reads as a signed value of that width. */
  lemma FromWordSigned(width: nat, u: nat)
    requires width > 0 && u < Pow2(width)
    ensures Signed(width, FromWord(width, u))
  {
  }

  lemma DecFixedRange(f: Format, width: nat, s: Bytes)
    requires width > 0 && DecFixed(f, width, s).Ok?
    ensures Signed(8 * width, DecFixed(f, width, s).value)
    ensures |DecFixed(f, width, s).rest| == |s| - width
  {
    var b := if f.Order().Little? then s[..width] else Reverse(s[..width]);
    LittleValueBound(b);
    FromWordSigned(8 * width, LittleValue(b));
  }

  lemma ReadVarintRange(w: Width, s: Bytes)
    requires ReadVarint(w, s).Ok?
    ensures Signed(w.Bits(), ReadVarint(w, s).value)
  {
    ZigZagBijection(w, 0, ReadVaruint(w, s).value);
  }

  lemma DecIntRange(f: Format, w: Width, s: Bytes)
    requires DecInt(f, w, s).Ok?
    ensures Signed(w.Bits(), DecInt(f, w, s).value) && |DecInt(f, w, s).rest| < |s|
  {
    if f.Varies() {
      ReadVarintRange(w, s);
      DigitsPrefix(s, w.Limit(), []);
    } else {
      DecFixedRange(f, w.Bits() / 8, s);
    }
  }

  lemma TakePrefix(n: nat, s: Bytes, t: Bytes)
    requires n <= |s|
    ensures (s + t)[..n] == s[..n] && (s + t)[n..] == s[n..] + t
  {
  }

  lemma DecIntPrefix(f: Format, w: Width, s: Bytes, t: Bytes)
    requires DecInt(f, w, s).Ok?
    ensures DecInt(f, w, s + t) == Ok(DecInt(f, w, s).value, DecInt(f, w, s).rest + t)
  {
    if f.Varies() {
      DigitsPrefix(s, w.Limit(), t);
    } else {
      TakePrefix(w.Bits() / 8, s, t);
    }
  }

  // ----------------------------------------------------------------- strings

  function EncString(f: Format, x: Bytes): (r: Encoded)
    ensures r.Wrote? <==> |x| <= MAX_STRING
  {
    if |x| > MAX_STRING then Refused(StringTooLong)
    else if f.Varies() then Wrote(Varuint(|x|) + x)
    else Wrote(EncFixed(f, 2, |x|) + x)
  }

  /** The length prefix of a string. A negative one is refused only where the byte order is the host's own. */
  function DecStringLength(f: Format, s: Bytes): Parse<nat>
  {
    if f.Varies() then
      match ReadVaruint(W32, s)
      case Ok(n, rest) => if n > MAX_STRING then Err(StringTooLong) else Ok(n, rest)
      case Err(e) => Err(e)
    else
      match DecWord(f, 2, s)
      case Ok(u, rest) => if FromWord(16, u) < 0 && f.Order() == f.host then Err(Overrun) else Ok(u, rest)
      case Err(_) => Err(Overrun)
  }

  function DecString(f: Format, s: Bytes): Parse<Bytes>
  {
    match DecStringLength(f, s)
    case Ok(n, rest) => Take(n, rest)
    case Err(e) => Err(e)
  }

  lemma StringRoundTrip(f: Format, x: Bytes, t: Bytes)
    requires |x| <= MAX_STRING
    ensures EncString(f, x).Wrote? && DecString(f, EncString(f, x).bytes + t) == Ok(x, t)
    ensures |EncString(f, x).bytes| > 0
  {
    TakeAppended(x, t);
    if f.Varies() {
      assert EncString(f, x).bytes + t == Varuint(|x|) + (x + t);
      SmallWords();
      VaruintRoundTrip(W32, |x|, x + t);
    } else {
      assert EncString(f, x).bytes + t == EncFixed(f, 2, |x|) + (x + t);
      SmallWords();
      SmallMod(|x|, Pow2(16));
      WordRoundTrips(f, 2, |x|, x + t);
    }
  }

  lemma SmallWords()
    ensures Pow2(15) == 0x8000 && Pow2(16) == 0x1_0000 && Pow2(32) == 0x1_0000_0000
  {
    Pow2Values();
  }

  lemma DecStringPrefix(f: Format, s: Bytes, t: Bytes)
    requires DecString(f, s).Ok?
    ensures DecString(f, s + t) == Ok(DecString(f, s).value, DecString(f, s).rest + t)
    ensures |DecString(f, s).rest| < |s|
  {
    if f.Varies() {
      DigitsPrefix(s, 5, t);
    } else {
      TakePrefix(2, s, t);
    }
    var r := DecStringLength(f, s);
    TakePrefix(r.value, r.rest, t);
  }

  // ------------------------------------------------------------------ arrays

  function EncInts(f: Format, w: Width, xs: seq<int>): Bytes
  {
    if xs == [] then [] else EncInt(f, w, xs[0]) + EncInts(f, w, xs[1..])
  }

  /** n integers one after the other, as the network encoding reads an array. Every failure reads as an overrun. */
  function DecEach(f: Format, w: Width, n: nat, s: Bytes): Parse<seq<int>>
  {
    if n == 0 then Ok([], s)
    else
      match DecInt(f, w, s)
      case Err(_) => Err(Overrun)
      case Ok(x, rest) =>
        match DecEach(f, w, n - 1, rest)
        case Err(e) => Err(e)
        case Ok(xs, rest') => Ok([x] + xs, rest')
  }

  function SignedWords(width: nat, us: seq<nat>): (xs: seq<int>)
    requires width > 0
    ensures |xs| == |us|
  {
    seq(|us|, i requires 0 <= i < |us| => FromWord(width, us[i]))
  }

  /** The elements of a fixed-width array, all bytes at once. */
  function DecBlock(f: Format, w: Width, n: nat, s: Bytes): Parse<seq<int>>
  {
    var width := w.Bits() / 8;
    match Take(n * width, s)
    case Ok(b, rest) => Ok(SignedWords(w.Bits(), Words(f.Order(), width, b)), rest)
    case Err(e) => Err(e)
  }

  /** A length and that many integers. */
  function DecInts(f: Format, w: Width, s: Bytes): Parse<seq<int>>
  {
    match DecInt(f, W32, s)
    case Err(_) => Err(Overrun)
    case Ok(n, rest) =>
      if n < 0 then Err(Overrun)
      else if f.Varies() then DecEach(f, w, n, rest)
      else DecBlock(f, w, n, rest)
  }

  /** The block read of an array agrees with reading its elements by the scalar reader, on every input. */
  lemma {:induction false} BlockReadsEach(f: Format, w: Width, n: nat, s: Bytes)
    requires !f.Varies()
    ensures DecBlock(f, w, n, s) == DecEach(f, w, n, s)
  {
    if n == 0 {
      assert s[..0] == [] && s[0..] == s;
    } else {
      var width := w.Bits() / 8;
      if |s| >= width {
        BlockReadsEach(f, w, n - 1, s[width..]);
      }
      BlockOpens(f, w, n, s);
    }
  }

  /** The first element of a block, and the rest of the block. */
  lemma BlockOpens(f: Format, w: Width, n: nat, s: Bytes)
    requires !f.Varies() && n > 0
    ensures DecInt(f, w, s).Err? ==> DecBlock(f, w, n, s) == Err(Overrun)
    ensures DecInt(f, w, s).Ok? ==>
      DecBlock(f, w, n, s) == match DecBlock(f, w, n - 1, DecInt(f, w, s).rest)
                              case Err(e) => Err(e)
                              case Ok(xs, rest) => Ok([DecInt(f, w, s).value] + xs, rest)
  {
    var width := w.Bits() / 8;
    var left := (n - 1) * width;
    assert n * width == left + width && left >= 0;
    if |s| >= left + width {
      SlicesAgree(s, width, left);
      var b := s[..left + width];
      SignedWordsCons(w.Bits(), FromFixed(f.Order(), b[..width]), Words(f.Order(), width, b[width..]));
    }
  }

  lemma SlicesAgree(s: Bytes, a: nat, b: nat)
    requires b + a <= |s|
    ensures s[..b + a][..a] == s[..a] && s[..b + a][a..] == s[a..][..b] && s[a..][b..] == s[b + a..]
  {
  }

  lemma SignedWordsCons(width: nat, u: nat, us: seq<nat>)
    requires width > 0
    ensures SignedWords(width, [u] + us) == [FromWord(width, u)] + SignedWords(width, us)
  {
  }

  predicate InRange(w: Width, xs: seq<int>)
  {
    forall i | 0 <= i < |xs| :: Signed(w.Bits(), xs[i])
  }

  lemma {:induction false} DecEachRoundTrip(f: Format, w: Width, xs: seq<int>, t: Bytes)
    requires InRange(w, xs)
    ensures DecEach(f, w, |xs|, EncInts(f, w, xs) + t) == Ok(xs, t)
  {
    if xs == [] {
      assert EncInts(f, w, xs) + t == t;
    } else {
      assert EncInts(f, w, xs) + t == EncInt(f, w, xs[0]) + (EncInts(f, w, xs[1..]) + t);
      IntRoundTrip(f, w, xs[0], EncInts(f, w, xs[1..]) + t);
      DecEachRoundTrip(f, w, xs[1..], t);
      assert [xs[0]] + xs[1..] == xs;
    }
  }

  /** Reading an array back from its per-element writes, in every encoding and on every host. */
  lemma IntsRoundTrip(f: Format, w: Width, xs: seq<int>, t: Bytes)
    requires InRange(w, xs) && |xs| < 0x8000_0000
    ensures DecInts(f, w, EncInt(f, W32, |xs|) + EncInts(f, w, xs) + t) == Ok(xs, t)
  {
    var tail := EncInts(f, w, xs) + t;
    assert EncInt(f, W32, |xs|) + EncInts(f, w, xs) + t == EncInt(f, W32, |xs|) + tail;
    Int32Bounds(|xs|);
    IntRoundTrip(f, W32, |xs|, tail);
    DecIntsReadsEach(f, w, EncInt(f, W32, |xs|) + tail, |xs|, tail);
    DecEachRoundTrip(f, w, xs, t);
  }

  /** Behind its length an array is read as one element after the other, in every encoding. */
  lemma DecIntsReadsEach(f: Format, w: Width, s: Bytes, n: nat, rest: Bytes)
    requires DecInt(f, W32, s) == Ok(n, rest)
    ensures DecInts(f, w, s) == DecEach(f, w, n, rest)
  {
    if !f.Varies() {
      BlockReadsEach(f, w, n, rest);
    }
  }

  lemma DecInt32Range(f: Format, s: Bytes)
    requires DecInt(f, W32, s).Ok?
    ensures DecInt(f, W32, s).value < 0x8000_0000 && |DecInt(f, W32, s).rest| < |s|
  {
    DecIntRange(f, W32, s);
    Int32Bounds(DecInt(f, W32, s).value);
  }

  lemma {:induction false} DecEachFacts(f: Format, w: Width, n: nat, s: Bytes, t: Bytes)
    requires DecEach(f, w, n, s).Ok?
    ensures InRange(w, DecEach(f, w, n, s).value) && |DecEach(f, w, n, s).value| == n
    ensures |DecEach(f, w, n, s).rest| <= |s|
    ensures DecEach(f, w, n, s + t) == Ok(DecEach(f, w, n, s).value, DecEach(f, w, n, s).rest + t)
  {
    if n > 0 {
      DecIntRange(f, w, s);
      DecIntPrefix(f, w, s, t);
      DecEachFacts(f, w, n - 1, DecInt(f, w, s).rest, t);
    }
  }

  lemma DecIntsFacts(f: Format, w: Width, s: Bytes, t: Bytes)
    requires DecInts(f, w, s).Ok?
    ensures InRange(w, DecInts(f, w, s).value) && |DecInts(f, w, s).value| < 0x8000_0000
    ensures |DecInts(f, w, s).rest| < |s|
    ensures DecInts(f, w, s + t) == Ok(DecInts(f, w, s).value, DecInts(f, w, s).rest + t)
  {
    DecInt32Range(f, s);
    DecIntPrefix(f, W32, s, t);
    var r := DecInt(f, W32, s);
    DecIntsReadsEach(f, w, s, r.value, r.rest);
    DecIntsReadsEach(f, w, s + t, r.value, r.rest + t);
    DecEachFacts(f, w, r.value, r.rest, t);
  }
}
