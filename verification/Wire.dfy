/** Bytes, parse results and the fixed-width integers every codec of the library is built from. */
module Wire {

  type byte = x: int | 0 <= x < 0x100
  type Bytes = seq<byte>

  type u16 = x: int | 0 <= x < 0x1_0000
  type u32 = x: int | 0 <= x < 0x1_0000_0000
  type u64 = x: int | 0 <= x < 0x1_0000_0000_0000_0000
  type i16 = x: int | -0x8000 <= x < 0x8000
  type i32 = x: int | -0x8000_0000 <= x < 0x8000_0000
  type i64 = x: int | -0x8000_0000_0000_0000 <= x < 0x8000_0000_0000_0000

  /** Why a read was refused. One constructor per error the readers tell apart. */
  datatype Error =
    | Overrun              // the input ended inside a value
    | VarintTooLong        // no terminating byte within 5 or 10 bytes
    | StringTooLong        // longer than an NBT or length-prefixed string may be
    | UnknownTag           // an NBT tag type outside 0..12
    | UnexpectedEnd        // a TAG_End where a value is needed
    | WrongType            // the root tag does not fit the Go value decoded into
    | DepthReached         // 512 nested compounds and lists
    | BytesReached         // 4 MiB of network NBT
    | SliceTooLong         // a count above 1024 with limits on, or above the bytes left
    | UnknownOption        // an enum value or union variant with no meaning
    | InvalidValue         // a value that contradicts another one read before it
    | BitsetOverflow       // a bit at or above the size of a bitset

  datatype Parse<+T> = Ok(value: T, rest: Bytes) | Err(error: Error) {
    predicate IsFailure() { Err? }
    function PropagateFailure<U>(): Parse<U>
      requires Err?
    {
      Err(error)
    }
    function Extract(): (T, Bytes)
      requires Ok?
    {
      (value, rest)
    }
  }

  /** The bytes an encoder wrote, or why it gave up. */
  datatype Encoded = Wrote(bytes: Bytes) | Refused(error: Error)

  datatype Option<+T> = None | Some(value: T)

  // ---------------------------------------------------------------- powers

  function Pow2(n: nat): (p: nat)
    ensures p > 0
  {
    if n == 0 then 1 else 2 * Pow2(n - 1)
  }

  lemma {:induction false} Pow2Adds(a: nat, b: nat)
    ensures Pow2(a + b) == Pow2(a) * Pow2(b)
  {
    if a > 0 {
      Pow2Adds(a - 1, b);
      calc {
        Pow2(a + b);
        2 * Pow2(a + b - 1);
        2 * (Pow2(a - 1) * Pow2(b));
        (2 * Pow2(a - 1)) * Pow2(b);
        Pow2(a) * Pow2(b);
      }
    }
  }

  lemma Pow2Byte()
    ensures Pow2(7) == 0x80 && Pow2(8) == 0x100
  {
  }

  lemma Pow2Values()
    ensures Pow2(7) == 0x80 && Pow2(8) == 0x100 && Pow2(16) == 0x1_0000
    ensures Pow2(31) == 0x8000_0000 && Pow2(32) == 0x1_0000_0000
    ensures Pow2(63) == 0x8000_0000_0000_0000 && Pow2(64) == 0x1_0000_0000_0000_0000
  {
    assert Pow2(8) == 0x100;
    Pow2Adds(8, 8);
    Pow2Adds(16, 15);
    assert Pow2(15) == 0x8000;
    Pow2Adds(32, 31);
    Pow2Adds(32, 32);
  }

  // ------------------------------------------------- two's complement words

  /** The unsigned word of width bits that a signed one converts to. */
  function ToWord(width: nat, x: int): (u: nat)
    ensures u < Pow2(width)
  {
    x % Pow2(width)
  }

  /** The signed word of width bits that an unsigned one converts to. */
  function FromWord(width: nat, u: nat): int
    requires width > 0
  {
    if u < Pow2(width - 1) then u else u - Pow2(width)
  }

  predicate Signed(width: nat, x: int)
    requires width > 0
  {
    0 - Pow2(width - 1) <= x < Pow2(width - 1)
  }

  lemma WordRoundTrip(width: nat, x: int)
    requires width > 0 && Signed(width, x)
    ensures FromWord(width, ToWord(width, x)) == x
  {
    var p := Pow2(width);
    if x < 0 {
      ModShift(x, p);
      SmallMod(x + p, p);
    } else {
      SmallMod(x, p);
    }
  }

  /** The bounds of an int32. */
  lemma Int32Bounds(x: int)
    ensures Signed(32, x) <==> -0x8000_0000 <= x < 0x8000_0000
  {
    Pow2Values();
  }

  lemma ModShift(x: int, p: nat)
    requires p > 0
    ensures (x + p) % p == x % p
  {
    var q, r := x / p, x % p;
    assert x + p == (q + 1) * p + r;
    DivUnique(x + p, p, q + 1, r);
  }

  lemma DivUnique(x: int, p: nat, q: int, r: int)
    requires p > 0 && 0 <= r < p && x == q * p + r
    ensures x / p == q && x % p == r
  {
    MultipleIsLarge(q - x / p, p);
    assert (q - x / p) * p == x % p - r;
  }

  lemma {:induction false} MultipleIsLarge(k: int, p: nat)
    ensures k > 0 ==> k * p >= p
    ensures k < 0 ==> k * p + p <= 0
    decreases if k < 0 then -k else k
  {
    if k > 0 {
      MultipleIsLarge(k - 1, p);
      assert k * p == (k - 1) * p + p;
    } else if k < 0 {
      MultipleIsLarge(k + 1, p);
      assert k * p == (k + 1) * p - p;
    }
  }

  lemma SmallMod(x: nat, p: nat)
    requires x < p
    ensures x % p == x
  {
  }

  // ------------------------------------------------------ fixed-width bytes

  datatype Order = Little | Big

  function Reverse(s: Bytes): (r: Bytes)
    ensures |r| == |s|
  {
    if s == [] then [] else Reverse(s[1..]) + [s[0]]
  }

  /** The n low bytes of x, least significant first. */
  function LittleBytes(n: nat, x: nat): (s: Bytes)
    ensures |s| == n
  {
    if n == 0 then [] else [x % 0x100] + LittleBytes(n - 1, x / 0x100)
  }

  function LittleValue(s: Bytes): nat
  {
    if s == [] then 0 else s[0] + 0x100 * LittleValue(s[1..])
  }

  /** The n low bytes of x in the given byte order, as encoding/binary writes them. */
  function ToFixed(order: Order, n: nat, x: nat): (s: Bytes)
    ensures |s| == n
  {
    if order.Little? then LittleBytes(n, x) else Reverse(LittleBytes(n, x))
  }

  function FromFixed(order: Order, s: Bytes): nat
  {
    LittleValue(if order.Little? then s else Reverse(s))
  }

  lemma {:induction false} ReverseAt(s: Bytes, k: nat)
    requires k < |s|
    ensures Reverse(s)[k] == s[|s| - 1 - k]
  {
    if k < |s| - 1 {
      ReverseAt(s[1..], k);
    }
  }

  lemma ReverseTwice(s: Bytes)
    ensures Reverse(Reverse(s)) == s
  {
    forall k | 0 <= k < |s| ensures Reverse(Reverse(s))[k] == s[k] {
      ReverseAt(Reverse(s), k);
      ReverseAt(s, |s| - 1 - k);
    }
  }

  lemma {:induction false} LittleRoundTrip(n: nat, x: nat)
    requires x < Pow2(8 * n)
    ensures LittleValue(LittleBytes(n, x)) == x
  {
    if n > 0 {
      Pow2Adds(8, 8 * (n - 1));
      Pow2Byte();
      assert x / 0x100 < Pow2(8 * (n - 1));
      LittleRoundTrip(n - 1, x / 0x100);
    }
  }

  lemma {:induction false} LittleValueBound(s: Bytes)
    ensures LittleValue(s) < Pow2(8 * |s|)
  {
    if s != [] {
      LittleValueBound(s[1..]);
      Pow2Adds(8, 8 * (|s| - 1));
      Pow2Byte();
    }
  }

  lemma FixedRoundTrip(order: Order, n: nat, x: nat)
    requires x < Pow2(8 * n)
    ensures FromFixed(order, ToFixed(order, n, x)) == x
  {
    LittleRoundTrip(n, x);
    ReverseTwice(LittleBytes(n, x));
  }

  /** Reads n bytes, or fails without telling how many were there. */
  function Take(n: nat, s: Bytes): (r: Parse<Bytes>)
    ensures r.Ok? <==> n <= |s|
    ensures r.Ok? ==> r.value + r.rest == s && |r.value| == n
  {
    if n <= |s| then Ok(s[..n], s[n..]) else Err(Overrun)
  }

  lemma TakeAppended(a: Bytes, t: Bytes)
    ensures Take(|a|, a + t) == Ok(a, t)
  {
    assert (a + t)[..|a|] == a && (a + t)[|a|..] == t;
  }

  /** A list whose first elements were read before. */
  function Following<T>(read: seq<T>, rest: Parse<seq<T>>): Parse<seq<T>>
  {
    match rest
    case Ok(xs, s) => Ok(read + xs, s)
    case Err(e) => Err(e)
  }

  lemma FollowingNothing<T>(rest: Parse<seq<T>>)
    ensures Following([], rest) == rest
  {
    if rest.Ok? { assert [] + rest.value == rest.value; }
  }

  lemma FollowingOne<T>(read: seq<T>, x: T, rest: Parse<seq<T>>)
    ensures Following(read + [x], rest) == Following(read, Following([x], rest))
  {
    if rest.Ok? { assert read + [x] + rest.value == read + ([x] + rest.value); }
  }

  lemma FollowingEnd<T>(read: seq<T>, s: Bytes)
    ensures Following(read, Ok([], s)) == Ok(read, s)
  {
    assert read + [] == read;
  }

  // --------------------------------------------------------- in-place buffer

  datatype Read<+T> = Done(value: T) | Failed(error: Error)

  /** A reader's outcome on its buffer, as the specification has it: value and remaining bytes, or the error. */
  predicate Reads<T(==)>(spec: Parse<T>, r: Read<T>, data: Bytes)
  {
    match spec
    case Ok(v, rest) => r == Done(v) && data == rest
    case Err(e) => r == Failed(e)
  }

  /** bytes.Buffer with its read offset: writes append at the end, reads consume from the front. */
  class Buffer {
    var data: Bytes
    var off: int

    /** The offset at which the input ends. Reads never move it. */
    function End(): int
      reads this
    {
      off + |data|
    }

    constructor (data: Bytes)
      ensures this.data == data && off == 0
    {
      this.data, off := data, 0;
    }

    method WriteByte(b: byte)
      modifies this`data
      ensures data == old(data) + [b]
    {
      data := data + [b];
    }

    method Write(s: Bytes)
      modifies this`data
      ensures data == old(data) + s
    {
      data := data + s;
    }

    /** The next byte, or None at the end of the input. */
    method ReadByte() returns (b: Option<byte>)
      modifies this
      ensures End() == old(End())
      ensures old(data) == [] ==> b == None && data == []
      ensures old(data) != [] ==> b == Some(old(data)[0]) && data == old(data)[1..]
    {
      if |data| == 0 {
        return None;
      }
      b := Some(data[0]);
      data, off := data[1..], off + 1;
    }

    /** bytes.Buffer.Read into the front of a: as many of the n bytes as there are, or None at the end of the input. */
    method ReadInto(a: array<byte>, n: nat) returns (count: Option<nat>)
      requires n <= a.Length
      modifies this, a
      ensures End() == old(End())
      ensures old(data) == [] ==> count == None && data == [] && a[..] == old(a[..])
      ensures old(data) != [] ==> var k := if |old(data)| < n then |old(data)| else n;
        count == Some(k) && data == old(data)[k..] && a[..] == old(data)[..k] + old(a[..])[k..]
    {
      if |data| == 0 {
        return None;
      }
      var k := if |data| < n then |data| else n;
      forall j | 0 <= j < k {
        a[j] := data[j];
      }
      data, off := data[k..], off + k;
      count := Some(k);
    }

    /** io.ReadFull of n bytes. */
    method ReadFull(n: nat) returns (r: Read<Bytes>)
      modifies this
      ensures Reads(Take(n, old(data)), r, data) && End() == old(End())
    {
      if n > |data| {
        data, off := [], off + |data|;
        return Failed(Overrun);
      }
      r := Done(data[..n]);
      data, off := data[n..], off + n;
    }
  }
}
