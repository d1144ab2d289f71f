/**
 * NBT as bytes: what a document looks like in each of the four encodings, in the numbers of the format itself. The
 * encoder writes this, and the decoder's numbers are the ones with these bytes.
 */
module NbtLayout {
  import opened Wire
  import opened Varints
  import opened WordBytes
  import opened NbtFormat
  import opened NbtTree

  // ------------------------------------------------------------------ numbers

  /**
   * n bytes of a number, or of the bits of a float: the least significant one first in the little-endian encodings, last
   * in the big-endian ones.
   */
  predicate Fixed(enc: Encoding, n: nat, x: int, s: Bytes)
  {
    match enc
    case LittleEndian => |s| == n && forall k | 0 <= k < n :: s[k] == x / Pow2(8 * k) % 0x100
    case NetworkLittleEndian => |s| == n && forall k | 0 <= k < n :: s[k] == x / Pow2(8 * k) % 0x100
    case BigEndian => |s| == n && forall k | 0 <= k < n :: s[k] == x / Pow2(8 * (n - 1 - k)) % 0x100
    case NetworkBigEndian => |s| == n && forall k | 0 <= k < n :: s[k] == x / Pow2(8 * (n - 1 - k)) % 0x100
  }

  /** The bytes that Fixed describes. */
  function FixedBytes(enc: Encoding, n: nat, x: int): (s: Bytes)
    ensures Fixed(enc, n, x, s)
  {
    LittleWritten(n, x);
    BigWritten(n, x);
    var s := LittleBytes(n, ToWord(8 * n, x));
    if enc.LittleEndian? || enc.NetworkLittleEndian? then s else Reverse(s)
  }

  lemma FixedIsOne(enc: Encoding, n: nat, x: int, s: Bytes)
    requires Fixed(enc, n, x, s)
    ensures s == FixedBytes(enc, n, x)
  {
  }

  lemma FixedWritten(f: Format, n: nat, x: int)
    ensures EncFixed(f, n, x) == FixedBytes(f.enc, n, x)
  {
  }

  lemma WordWritten(f: Format, n: nat, x: nat)
    ensures ToFixed(f.Order(), n, x) == FixedBytes(f.enc, n, x)
  {
    var s, w := LittleBytes(n, x), LittleBytes(n, ToWord(8 * n, x));
    forall k | 0 <= k < n ensures s[k] == w[k] {
      LittleBytesAt(n, x, k);
      LittleBytesAt(n, ToWord(8 * n, x), k);
      ByteOfWord(n, x, k);
    }
    assert s == w;
  }

  lemma ReversedRead(s: Bytes)
    ensures HighFirst(|s|, LittleValue(Reverse(s)), s)
  {
    var r := Reverse(s);
    LittleRead(r);
    forall k | 0 <= k < |s| ensures s[k] == LittleValue(r) / Pow2(8 * (|s| - 1 - k)) % 0x100 {
      ReverseAt(s, |s| - 1 - k);
    }
  }

  /** The bytes of a word are those of the signed number it is converted to. */
  lemma FixedOfWord(enc: Encoding, n: nat, u: nat, s: Bytes)
    requires n > 0 && Fixed(enc, n, u, s) && u < Pow2(8 * n)
    ensures Fixed(enc, n, FromWord(8 * n, u), s)
  {
    var x := FromWord(8 * n, u);
    if x != u {
      ModShift(x, Pow2(8 * n));
      SmallMod(u, Pow2(8 * n));
      assert ToWord(8 * n, x) == u;
      forall k | 0 <= k < n ensures u / Pow2(8 * k) % 0x100 == x / Pow2(8 * k) % 0x100 {
        ByteOfWord(n, x, k);
        assert ByteOf(u, k) == u / Pow2(8 * k) % 0x100 && ByteOf(x, k) == x / Pow2(8 * k) % 0x100;
      }
    }
  }

  /**
   * A reader of fixed-width numbers, on any input: it fails on fewer bytes, and otherwise returns the number with these
   * bytes, unsigned below 2^(8n) or signed around zero, and leaves the rest.
   */
  lemma FixedRead(f: Format, n: nat, s: Bytes)
    requires n > 0
    ensures |s| < n ==> DecWord(f, n, s) == Err(Overrun) && DecFixed(f, n, s) == Err(Overrun)
    ensures |s| >= n ==>
      var r := DecWord(f, n, s);
      r.Ok? && r.rest == s[n..] && 0 <= r.value < Pow2(8 * n) && Fixed(f.enc, n, r.value, s[..n])
    ensures |s| >= n ==>
      var r := DecFixed(f, n, s);
      && r.Ok? && r.rest == s[n..] && Fixed(f.enc, n, r.value, s[..n])
      && 0 - Pow2(8 * n - 1) <= r.value < Pow2(8 * n - 1)
  {
    if |s| >= n {
      var b := s[..n];
      LittleRead(b);
      ReversedRead(b);
      LittleValueBound(b);
      LittleValueBound(Reverse(b));
      FixedOfWord(f.enc, n, DecWord(f, n, s).value, b);
      DecFixedRange(f, n, s);
    }
  }

  // ---------------------------------------------------------------- documents

  /** An int32 or int64, and a length: fixed in n bytes, or a zigzag varint on the little-endian network. */
  function Whole(enc: Encoding, n: nat, x: int): Bytes
  {
    if enc.NetworkLittleEndian? then Varint(x) else FixedBytes(enc, n, x)
  }

  /** A string or a name: its length in two bytes, or as an unsigned varint, and its bytes. */
  function Text(enc: Encoding, s: Bytes): Bytes
  {
    (if enc.NetworkLittleEndian? then Varuint(|s|) else FixedBytes(enc, 2, |s|)) + s
  }

  function Wholes(enc: Encoding, n: nat, xs: seq<int>): Bytes
  {
    if xs == [] then [] else Whole(enc, n, xs[0]) + Wholes(enc, n, xs[1..])
  }

  /** The type byte of a tag. */
  function TypeOf(o: Tree): byte
  {
    match o
    case Node(Byte(_)) => 1
    case Node(Int16(_)) => 2
    case Node(Int32(_)) => 3
    case Node(Int64(_)) => 4
    case Node(Float32(_)) => 5
    case Node(Float64(_)) => 6
    case Node(ByteArray(_)) => 7
    case Node(String(_)) => 8
    case Node(ByteList(_)) => 9
    case Node(Int32List(_)) => 9
    case Node(Int64List(_)) => 9
    case Slice(_) => 9
    case Struct(_) => 10
    case Node(Int32Array(_)) => 11
    case Node(Int64Array(_)) => 12
  }

  function LeafBytes(enc: Encoding, leaf: Leaf): Bytes
  {
    match leaf
    case Byte(b) => [b]
    case Int16(x) => FixedBytes(enc, 2, x)
    case Int32(x) => Whole(enc, 4, x)
    case Int64(x) => Whole(enc, 8, x)
    case Float32(bits) => FixedBytes(enc, 4, bits)
    case Float64(bits) => FixedBytes(enc, 8, bits)
    case ByteArray(bytes) => Whole(enc, 4, |bytes|) + bytes
    case String(bytes) => Text(enc, bytes)
    case Int32Array(xs) => Whole(enc, 4, |xs|) + Wholes(enc, 4, xs)
    case Int64Array(xs) => Whole(enc, 4, |xs|) + Wholes(enc, 8, xs)
    case ByteList(bytes) => [1] + (Whole(enc, 4, |bytes|) + bytes)
    case Int32List(xs) => [3] + (Whole(enc, 4, |xs|) + Wholes(enc, 4, xs))
    case Int64List(xs) => [4] + (Whole(enc, 4, |xs|) + Wholes(enc, 8, xs))
  }

  /** What stands behind the type and the name of a tag. */
  function Payload(enc: Encoding, o: Tree): Bytes
    decreases o, 0
  {
    match o
    case Node(leaf) => LeafBytes(enc, leaf)
    case Slice(xs) => [if xs == [] then 0 else TypeOf(xs[0])] + Whole(enc, 4, |xs|) + Payloads(enc, xs)
    case Struct(es) => Tags(enc, es) + [0]
  }

  function Payloads(enc: Encoding, xs: seq<Tree>): Bytes
    decreases xs, 1
  {
    if xs == [] then [] else Payload(enc, xs[0]) + Payloads(enc, xs[1..])
  }

  function Tags(enc: Encoding, es: seq<Entry>): Bytes
    decreases es, 1
  {
    if es == [] then []
    else ([TypeOf(es[0].tree)] + Text(enc, es[0].name) + Payload(enc, es[0].tree)) + Tags(enc, es[1..])
  }

  /** A whole document: a root without a name, of which the big-endian network leaves out even the empty one. */
  function Document(enc: Encoding, o: Tree): Bytes
  {
    [TypeOf(o)] + (if enc.NetworkBigEndian? && o.Struct? then [] else Text(enc, [])) + Payload(enc, o)
  }

  /** Strings and names of at most 32767 bytes, and no tag 512 levels down. */
  predicate Small(depth: int, o: Tree)
    decreases o
  {
    match o
    case Node(leaf) => leaf.String? ==> |leaf.bytes| <= 32767
    case Slice(xs) => forall i | 0 <= i < |xs| :: Small(depth + 1, xs[i])
    case Struct(es) => forall i | 0 <= i < |es| ::
      depth + 1 < 512 && |es[i].name| <= 32767 && Small(depth + 1, es[i].tree)
  }

  lemma TypesAgree(o: Tree)
    ensures o.Tag() == TypeOf(o)
  {
  }

  lemma WholeWritten(f: Format, w: Width, x: int)
    ensures EncInt(f, w, x) == Whole(f.enc, if w.W32? then 4 else 8, x)
  {
    FixedWritten(f, w.Bits() / 8, x);
  }

  lemma {:induction false} WholesWritten(f: Format, w: Width, xs: seq<int>)
    ensures EncInts(f, w, xs) == Wholes(f.enc, if w.W32? then 4 else 8, xs)
  {
    if xs != [] {
      WholeWritten(f, w, xs[0]);
      WholesWritten(f, w, xs[1..]);
    }
  }

  lemma TextWritten(f: Format, s: Bytes)
    ensures EncString(f, s) == if |s| <= 32767 then Wrote(Text(f.enc, s)) else Refused(StringTooLong)
  {
    FixedWritten(f, 2, |s|);
  }

  lemma LeafWritten(f: Format, leaf: Leaf)
    requires leaf.String? ==> |leaf.bytes| <= 32767
    ensures EncLeaf(f, leaf) == Wrote(LeafBytes(f.enc, leaf))
  {
    hide FixedBytes, EncFixed, EncString, EncInt, EncInts, Whole, Wholes, ToFixed, Text;
    match leaf
    case Byte(_) =>
    case Int16(x) => FixedWritten(f, 2, x);
    case Int32(x) => WholeWritten(f, W32, x);
    case Int64(x) => WholeWritten(f, W64, x);
    case Float32(bits) => WordWritten(f, 4, bits);
    case Float64(bits) => WordWritten(f, 8, bits);
    case String(bytes) => TextWritten(f, bytes);
    case ByteArray(bytes) => WholeWritten(f, W32, |bytes|);
    case ByteList(bytes) => WholeWritten(f, W32, |bytes|);
    case Int32Array(xs) => WholeWritten(f, W32, |xs|); WholesWritten(f, W32, xs);
    case Int64Array(xs) => WholeWritten(f, W32, |xs|); WholesWritten(f, W64, xs);
    case Int32List(xs) => WholeWritten(f, W32, |xs|); WholesWritten(f, W32, xs);
    case Int64List(xs) => WholeWritten(f, W32, |xs|); WholesWritten(f, W64, xs);
  }

  lemma {:induction false} PayloadWritten(f: Format, depth: int, o: Tree)
    requires depth >= 0 && Small(depth, o)
    ensures EncPayload(f, depth, o) == Wrote(Payload(f.enc, o))
    decreases o, 0
  {
    match o
    case Node(leaf) => LeafWritten(f, leaf);
    case Slice(xs) =>
      WholeWritten(f, W32, |xs|);
      PayloadsWritten(f, depth + 1, xs);
      if xs != [] { TypesAgree(xs[0]); }
    case Struct(es) =>
      if es != [] { assert |es[0].name| <= 32767; }
      TagsWritten(f, depth + 1, es);
  }

  lemma {:induction false} PayloadsWritten(f: Format, depth: int, xs: seq<Tree>)
    requires depth >= 0 && forall i | 0 <= i < |xs| :: Small(depth, xs[i])
    ensures EncAll(f, depth, xs) == Wrote(Payloads(f.enc, xs))
    decreases xs, 1
  {
    if xs != [] {
      PayloadWritten(f, depth, xs[0]);
      PayloadsWritten(f, depth, xs[1..]);
    }
  }

  lemma {:induction false} TagsWritten(f: Format, depth: int, es: seq<Entry>)
    requires 0 < depth && (es != [] ==> depth < 512)
    requires forall i | 0 <= i < |es| :: |es[i].name| <= 32767 && Small(depth, es[i].tree)
    ensures EncEntries(f, depth, es) == Wrote(Tags(f.enc, es))
    decreases es, 1
  {
    if es != [] {
      TextWritten(f, es[0].name);
      TypesAgree(es[0].tree);
      PayloadWritten(f, depth, es[0].tree);
      TagsWritten(f, depth, es[1..]);
    }
  }

  lemma {:induction false} SmallIsEncodable(depth: int, o: Tree)
    ensures Small(depth, o) <==> Encodable(depth, o)
    decreases o
  {
    match o
    case Node(_) =>
    case Slice(xs) =>
      forall i | 0 <= i < |xs| ensures Small(depth + 1, xs[i]) <==> Encodable(depth + 1, xs[i]) {
        SmallIsEncodable(depth + 1, xs[i]);
      }
    case Struct(es) =>
      forall i | 0 <= i < |es| ensures Small(depth + 1, es[i].tree) <==> Encodable(depth + 1, es[i].tree) {
        SmallIsEncodable(depth + 1, es[i].tree);
      }
      assert es != [] && depth + 1 >= 512 ==> |es[0].name| >= 0 && !Small(depth, o) && !Encodable(depth, o);
  }

  /** The encoder writes the document, for every value and every order of its keys, unless something in it is too big. */
  lemma DocumentWritten(f: Format, o: Tree)
    ensures Small(0, o) ==> Encode(f, o) == Wrote(Document(f.enc, o))
    ensures !Small(0, o) ==> Encode(f, o).Refused?
  {
    hide EncPayload, Payload, Small, Encodable;
    SmallIsEncodable(0, o);
    EncodableIffWritten(f, 0, o);
    TextWritten(f, []);
    TypesAgree(o);
    if Small(0, o) { PayloadWritten(f, 0, o); }
  }
}
