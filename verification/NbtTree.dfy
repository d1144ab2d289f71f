/**
 * NBT trees, and what the encoder writes for them.
 *
 * A Tree is a Go value together with one iteration order for each of its maps: Go visits the keys of a map in any
 * order, so an encoding is a function of the tree, and a statement about all trees is one about all key orders. A Value
 * is the Go value alone.
 */
module NbtTree {
  import opened Wire
  import opened Varints
  import opened NbtFormat

  const TAG_END: byte := 0
  const TAG_BYTE: byte := 1
  const TAG_INT16: byte := 2
  const TAG_INT32: byte := 3
  const TAG_INT64: byte := 4
  const TAG_FLOAT32: byte := 5
  const TAG_FLOAT64: byte := 6
  const TAG_BYTE_ARRAY: byte := 7
  const TAG_STRING: byte := 8
  const TAG_SLICE: byte := 9
  const TAG_STRUCT: byte := 10
  const TAG_INT32_ARRAY: byte := 11
  const TAG_INT64_ARRAY: byte := 12

  /** Everything without nested tags. Floats are opaque bit patterns; the three typed lists are []byte, []int32, []int64. */
  datatype Leaf =
    | Byte(b: byte)
    | Int16(x: int)
    | Int32(x: int)
    | Int64(x: int)
    | Float32(bits: nat)
    | Float64(bits: nat)
    | ByteArray(bytes: Bytes)
    | String(bytes: Bytes)
    | Int32Array(xs: seq<int>)
    | Int64Array(xs: seq<int>)
    | ByteList(bytes: Bytes)
    | Int32List(xs: seq<int>)
    | Int64List(xs: seq<int>)
  {
    predicate TypedList() { ByteList? || Int32List? || Int64List? }

    function Tag(): byte
    {
      match this
      case Byte(_) => TAG_BYTE
      case Int16(_) => TAG_INT16
      case Int32(_) => TAG_INT32
      case Int64(_) => TAG_INT64
      case Float32(_) => TAG_FLOAT32
      case Float64(_) => TAG_FLOAT64
      case ByteArray(_) => TAG_BYTE_ARRAY
      case String(_) => TAG_STRING
      case Int32Array(_) => TAG_INT32_ARRAY
      case Int64Array(_) => TAG_INT64_ARRAY
      case _ => TAG_SLICE
    }

    /** The ranges of the Go types, and lengths an int32 can hold. */
    predicate Valid()
    {
      match this
      case Byte(_) => true
      case Int16(x) => Signed(16, x)
      case Int32(x) => Signed(32, x)
      case Int64(x) => Signed(64, x)
      case Float32(bits) => bits < Pow2(32)
      case Float64(bits) => bits < Pow2(64)
      case ByteArray(bytes) => |bytes| < 0x8000_0000
      case String(bytes) => true
      case Int32Array(xs) => InRange(W32, xs) && |xs| < 0x8000_0000
      case Int64Array(xs) => InRange(W64, xs) && |xs| < 0x8000_0000
      case ByteList(bytes) => |bytes| < 0x8000_0000
      case Int32List(xs) => InRange(W32, xs) && |xs| < 0x8000_0000
      case Int64List(xs) => InRange(W64, xs) && |xs| < 0x8000_0000
    }
  }

  datatype Entry = Entry(name: Bytes, tree: Tree)

  datatype Tree = Node(leaf: Leaf) | Slice(xs: seq<Tree>) | Struct(entries: seq<Entry>)
  {
    function Tag(): byte
    {
      match this
      case Node(leaf) => leaf.Tag()
      case Slice(_) => TAG_SLICE
      case Struct(_) => TAG_STRUCT
    }
  }

  datatype Value = Atom(leaf: Leaf) | List(xs: seq<Value>) | Compound(fields: map<Bytes, Value>)

  predicate TypedElement(t: byte) { t == TAG_BYTE || t == TAG_INT32 || t == TAG_INT64 }

  // ----------------------------------------------------- trees as Go values

  /** The Go value, with the orders forgotten. */
  function Erase(o: Tree): Value
  {
    match o
    case Node(leaf) => Atom(leaf)
    case Slice(xs) => List(EraseAll(xs))
    case Struct(entries) => Compound(EraseEntries(entries))
  }

  function EraseAll(xs: seq<Tree>): (r: seq<Value>)
    ensures |r| == |xs|
    ensures forall i | 0 <= i < |xs| :: r[i] == Erase(xs[i])
  {
    if xs == [] then [] else [Erase(xs[0])] + EraseAll(xs[1..])
  }

  /** Assignments to a Go map one after the other: a later entry replaces an earlier one of the same name. */
  function EraseEntries(es: seq<Entry>): map<Bytes, Value>
  {
    if es == [] then map[]
    else EraseEntries(es[..|es| - 1])[es[|es| - 1].name := Erase(es[|es| - 1].tree)]
  }

  /** No compound names an entry twice: the tree is an order of a Go value. */
  predicate Distinct(o: Tree)
  {
    match o
    case Node(_) => true
    case Slice(xs) => forall i | 0 <= i < |xs| :: Distinct(xs[i])
    case Struct(es) =>
      && (forall i | 0 <= i < |es| :: Distinct(es[i].tree))
      && forall i, j | 0 <= i < j < |es| :: es[i].name != es[j].name
  }

  /** What the encoder asks of its argument: Go's ranges, and elements of one tag type in every list. */
  predicate Sound(o: Tree)
  {
    match o
    case Node(leaf) => leaf.Valid()
    case Slice(xs) =>
      && |xs| < 0x8000_0000
      && forall i | 0 <= i < |xs| :: Sound(xs[i]) && xs[i].Tag() == xs[0].Tag()
    case Struct(es) => forall i | 0 <= i < |es| :: Sound(es[i].tree)
  }

  // ----------------------------------------------------------------- encoder

  function Then(a: Encoded, b: Encoded): Encoded
  {
    if a.Refused? then a else if b.Refused? then b else Wrote(a.bytes + b.bytes)
  }

  function EncSized(f: Format, n: nat, s: Bytes): Encoded
  {
    Wrote(EncInt(f, W32, n) + s)
  }

  function EncLeaf(f: Format, leaf: Leaf): Encoded
  {
    match leaf
    case Byte(b) => Wrote([b])
    case Int16(x) => Wrote(EncFixed(f, 2, x))
    case Int32(x) => Wrote(EncInt(f, W32, x))
    case Int64(x) => Wrote(EncInt(f, W64, x))
    case Float32(bits) => Wrote(ToFixed(f.Order(), 4, bits))
    case Float64(bits) => Wrote(ToFixed(f.Order(), 8, bits))
    case ByteArray(bytes) => EncSized(f, |bytes|, bytes)
    case String(bytes) => EncString(f, bytes)
    case Int32Array(xs) => EncSized(f, |xs|, EncInts(f, W32, xs))
    case Int64Array(xs) => EncSized(f, |xs|, EncInts(f, W64, xs))
    case ByteList(bytes) => Then(Wrote([TAG_BYTE]), EncSized(f, |bytes|, bytes))
    case Int32List(xs) => Then(Wrote([TAG_INT32]), EncSized(f, |xs|, EncInts(f, W32, xs)))
    case Int64List(xs) => Then(Wrote([TAG_INT64]), EncSized(f, |xs|, EncInts(f, W64, xs)))
  }

  /** The element type of a list: the first element's, or TAG_End for none. */
  function ElementTag(xs: seq<Tree>): byte
  {
    if xs == [] then TAG_END else xs[0].Tag()
  }

  predicate Nameless(f: Format, t: byte, depth: int)
  {
    f.enc.NetworkBigEndian? && t == TAG_STRUCT && depth == 0
  }

  function EncTag(f: Format, depth: int, t: byte, name: Bytes): Encoded
  {
    if depth >= MAX_DEPTH then Refused(DepthReached)
    else if Nameless(f, t, depth) then Wrote([t])
    else Then(Wrote([t]), EncString(f, name))
  }

  function EncPayload(f: Format, depth: int, o: Tree): Encoded
    decreases o, 0
  {
    match o
    case Node(leaf) => EncLeaf(f, leaf)
    case Slice(xs) =>
      Then(Wrote([ElementTag(xs)] + EncInt(f, W32, |xs|)), EncAll(f, depth + 1, xs))
    case Struct(es) => Then(EncEntries(f, depth + 1, es), Wrote([TAG_END]))
  }

  function EncAll(f: Format, depth: int, xs: seq<Tree>): Encoded
    decreases xs, 1
  {
    if xs == [] then Wrote([]) else Then(EncPayload(f, depth, xs[0]), EncAll(f, depth, xs[1..]))
  }

  function EncEntry(f: Format, depth: int, e: Entry): Encoded
    decreases e, 1
  {
    Then(EncTag(f, depth, e.tree.Tag(), e.name), EncPayload(f, depth, e.tree))
  }

  function EncEntries(f: Format, depth: int, es: seq<Entry>): Encoded
    decreases es, 1
  {
    if es == [] then Wrote([]) else Then(EncEntry(f, depth, es[0]), EncEntries(f, depth, es[1..]))
  }

  /** Encoder.Encode: the root is written with an empty name. */
  function Encode(f: Format, o: Tree): Encoded
  {
    EncEntry(f, 0, Entry([], o))
  }

  // ------------------------------------------------- when the encoder accepts

  /** Strings and names short enough, and no tag 512 levels down. */
  predicate Encodable(depth: int, o: Tree)
    decreases o
  {
    match o
    case Node(leaf) => leaf.String? ==> |leaf.bytes| <= MAX_STRING
    case Slice(xs) => forall i | 0 <= i < |xs| :: Encodable(depth + 1, xs[i])
    case Struct(es) => forall i | 0 <= i < |es| ::
      depth + 1 < MAX_DEPTH && |es[i].name| <= MAX_STRING && Encodable(depth + 1, es[i].tree)
  }

  lemma {:induction false} EncodableIffWritten(f: Format, depth: int, o: Tree)
    requires depth >= 0
    ensures EncPayload(f, depth, o).Wrote? <==> Encodable(depth, o)
    decreases o, 0
  {
    match o
    case Node(leaf) =>
    case Slice(xs) => AllEncodable(f, depth + 1, xs);
    case Struct(es) => EntriesEncodable(f, depth + 1, es);
  }

  lemma {:induction false} AllEncodable(f: Format, depth: int, xs: seq<Tree>)
    requires depth >= 0
    ensures EncAll(f, depth, xs).Wrote? <==> forall i | 0 <= i < |xs| :: Encodable(depth, xs[i])
    decreases xs, 1
  {
    if xs != [] {
      EncodableIffWritten(f, depth, xs[0]);
      AllEncodable(f, depth, xs[1..]);
      assert forall i | 1 <= i < |xs| :: xs[i] == xs[1..][i - 1];
    }
  }

  lemma {:induction false} EntriesEncodable(f: Format, depth: int, es: seq<Entry>)
    requires depth > 0
    ensures EncEntries(f, depth, es).Wrote? <==> forall i | 0 <= i < |es| ::
      depth < MAX_DEPTH && |es[i].name| <= MAX_STRING && Encodable(depth, es[i].tree)
    decreases es, 1
  {
    if es != [] {
      EncodableIffWritten(f, depth, es[0].tree);
      EntriesEncodable(f, depth, es[1..]);
      assert forall i | 1 <= i < |es| :: es[i] == es[1..][i - 1];
    }
  }
}
