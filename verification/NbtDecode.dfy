/** What the decoder reads: a tree in the order of the wire, or the error it stops with. */
module NbtDecode {
  import opened Wire
  import opened Varints
  import opened NbtFormat
  import opened NbtTree

  /** The decoder between two reads: what is left, the offset at which the input ends, and the depth counter. */
  datatype Dec = Dec(s: Bytes, end: int, depth: int) {
    function Off(): int { end - |s| }
    function Append(t: Bytes): Dec { Dec(s + t, end + |t|, depth) }
    function At(s': Bytes): Dec { Dec(s', end, depth) }
    function Deeper(levels: int): Dec { Dec(s, end, depth + levels) }
  }

  datatype Res<+T> = Got(v: T, d: Dec) | Lost(error: Error)

  // ------------------------------------------------------------------ leaves

  function DecSized(f: Format, s: Bytes): Parse<Bytes>
  {
    match DecInt(f, W32, s)
    case Err(e) => Err(e)
    case Ok(n, rest) => if n < 0 then Err(Overrun) else Take(n, rest)
  }

  /** A parsed value under the constructor of a leaf. */
  function As<T>(mk: T -> Leaf, p: Parse<T>): Parse<Leaf>
  {
    match p
    case Ok(v, rest) => Ok(mk(v), rest)
    case Err(e) => Err(e)
  }

  function DecLeaf(f: Format, t: byte, s: Bytes): Parse<Leaf>
  {
    if t == TAG_BYTE then if s == [] then Err(Overrun) else Ok(Byte(s[0]), s[1..])
    else if t == TAG_INT16 then As(x => Int16(x), DecFixed(f, 2, s))
    else if t == TAG_INT32 then As(x => Int32(x), DecInt(f, W32, s))
    else if t == TAG_INT64 then As(x => Int64(x), DecInt(f, W64, s))
    else if t == TAG_FLOAT32 then As(x => Float32(x), DecWord(f, 4, s))
    else if t == TAG_FLOAT64 then As(x => Float64(x), DecWord(f, 8, s))
    else if t == TAG_BYTE_ARRAY then As(x => ByteArray(x), DecSized(f, s))
    else if t == TAG_STRING then As(x => String(x), DecString(f, s))
    else if t == TAG_INT32_ARRAY then As(x => Int32Array(x), DecInts(f, W32, s))
    else if t == TAG_INT64_ARRAY then As(x => Int64Array(x), DecInts(f, W64, s))
    else if t == TAG_END then Err(UnexpectedEnd)
    else Err(UnknownTag)
  }

  /** A list of bytes, ints or longs after its element type. Every failure reads as an overrun. */
  function DecTypedList(f: Format, t: byte, s: Bytes): Parse<Leaf>
  {
    var p := if t == TAG_BYTE then As(x => ByteList(x), DecSized(f, s))
             else if t == TAG_INT32 then As(x => Int32List(x), DecInts(f, W32, s))
             else As(x => Int64List(x), DecInts(f, W64, s));
    if p.Err? then Err(Overrun) else p
  }

  lemma DecSizedFacts(f: Format, s: Bytes, t: Bytes)
    requires DecSized(f, s).Ok?
    ensures |DecSized(f, s).value| < 0x8000_0000 && |DecSized(f, s).rest| < |s|
    ensures DecSized(f, s + t) == Ok(DecSized(f, s).value, DecSized(f, s).rest + t)
  {
    DecInt32Range(f, s);
    DecIntPrefix(f, W32, s, t);
    TakePrefix(DecInt(f, W32, s).value, DecInt(f, W32, s).rest, t);
  }

  lemma DecWordFacts(f: Format, width: nat, s: Bytes, t: Bytes)
    requires width > 0 && DecWord(f, width, s).Ok?
    ensures DecWord(f, width, s).value < Pow2(8 * width) && |DecWord(f, width, s).rest| < |s|
    ensures DecWord(f, width, s + t) == Ok(DecWord(f, width, s).value, DecWord(f, width, s).rest + t)
  {
    TakePrefix(width, s, t);
    LittleValueBound(if f.Order().Little? then s[..width] else Reverse(s[..width]));
  }

  /** A leaf that was read is in range, took at least one byte, and does not depend on what follows it. */
  lemma DecLeafFacts(f: Format, t: byte, s: Bytes, x: Bytes)
    requires DecLeaf(f, t, s).Ok?
    ensures DecLeaf(f, t, s).value.Valid() && DecLeaf(f, t, s).value.Tag() == t
    ensures |DecLeaf(f, t, s).rest| < |s|
    ensures DecLeaf(f, t, s + x) == Ok(DecLeaf(f, t, s).value, DecLeaf(f, t, s).rest + x)
  {
    if t == TAG_BYTE {
      TakePrefix(1, s, x);
    } else if t == TAG_INT16 {
      DecFixedRange(f, 2, s);
      DecWordFacts(f, 2, s, x);
    } else if t == TAG_INT32 {
      DecIntRange(f, W32, s);
      DecIntPrefix(f, W32, s, x);
    } else if t == TAG_INT64 {
      DecIntRange(f, W64, s);
      DecIntPrefix(f, W64, s, x);
    } else if t == TAG_FLOAT32 {
      DecWordFacts(f, 4, s, x);
    } else if t == TAG_FLOAT64 {
      DecWordFacts(f, 8, s, x);
    } else if t == TAG_BYTE_ARRAY {
      DecSizedFacts(f, s, x);
    } else if t == TAG_STRING {
      DecStringPrefix(f, s, x);
    } else {
      DecIntsFacts(f, if t == TAG_INT32_ARRAY then W32 else W64, s, x);
    }
  }

  lemma DecTypedListFacts(f: Format, t: byte, s: Bytes, x: Bytes)
    requires TypedElement(t) && DecTypedList(f, t, s).Ok?
    ensures DecTypedList(f, t, s).value.Valid() && DecTypedList(f, t, s).value.TypedList()
    ensures |DecTypedList(f, t, s).rest| < |s|
    ensures DecTypedList(f, t, s + x) == Ok(DecTypedList(f, t, s).value, DecTypedList(f, t, s).rest + x)
  {
    if t == TAG_BYTE {
      DecSizedFacts(f, s, x);
    } else {
      DecIntsFacts(f, if t == TAG_INT32 then W32 else W64, s, x);
    }
  }

  // -------------------------------------------------------------------- tags

  /** Decoder.tag: the type of the next tag, and its name unless it is an end tag or the nameless root. */
  function DecTag(f: Format, d: Dec): Res<(byte, Bytes)>
  {
    if d.depth >= MAX_DEPTH then Lost(DepthReached)
    else if d.Off() >= MAX_NETWORK_OFFSET && f.Varies() then Lost(BytesReached)
    else if d.s == [] then Lost(Overrun)
    else if Nameless(f, d.s[0], d.depth) || d.s[0] == TAG_END then Got((d.s[0], []), d.At(d.s[1..]))
    else
      match DecString(f, d.s[1..])
      case Ok(name, rest) => Got((d.s[0], name), d.At(rest))
      case Err(e) => Lost(e)
  }

  predicate Known(t: byte) { t <= TAG_INT64_ARRAY }

  lemma DecTagFacts(f: Format, d: Dec, x: Bytes)
    requires DecTag(f, d).Got?
    ensures |DecTag(f, d).d.s| < |d.s| && DecTag(f, d).d.end == d.end && DecTag(f, d).d.depth == d.depth
    ensures DecTag(f, d.Append(x)) == Got(DecTag(f, d).v, DecTag(f, d).d.Append(x))
    ensures d.depth < MAX_DEPTH
  {
    TakePrefix(1, d.s, x);
    if !(Nameless(f, d.s[0], d.depth) || d.s[0] == TAG_END) {
      DecStringPrefix(f, d.s[1..], x);
    }
  }

  // ------------------------------------------------------------ nested reads

  function DecPayload(f: Format, t: byte, d: Dec): (r: Res<Tree>)
    ensures r.Got? ==> |r.d.s| < |d.s| && r.d.end == d.end
    decreases |d.s|, 1
  {
    if t == TAG_SLICE then DecList(f, d)
    else if t == TAG_STRUCT then
      match DecEntries(f, d.Deeper(1))
      case Got(es, d') => Got(Struct(es), d'.Deeper(-1))
      case Lost(e) => Lost(e)
    else
      match DecLeaf(f, t, d.s)
      case Ok(leaf, rest) => DecLeafFacts(f, t, d.s, []); Got(Node(leaf), d.At(rest))
      case Err(e) => Lost(e)
  }

  /** A list. The counter goes up for every list, and comes down again only for those of other element types. */
  function DecList(f: Format, d: Dec): (r: Res<Tree>)
    ensures r.Got? ==> |r.d.s| < |d.s| && r.d.end == d.end
    decreases |d.s|, 0
  {
    if d.s == [] then Lost(Overrun)
    else if !Known(d.s[0]) then Lost(UnknownTag)
    else if TypedElement(d.s[0]) then
      match DecTypedList(f, d.s[0], d.s[1..])
      case Ok(leaf, rest) => DecTypedListFacts(f, d.s[0], d.s[1..], []); Got(Node(leaf), d.At(rest).Deeper(1))
      case Err(e) => Lost(e)
    else
      match DecInt(f, W32, d.s[1..])
      case Err(e) => Lost(e)
      case Ok(n, rest) =>
        if n < 0 then Lost(Overrun)
        else
          DecInt32Range(f, d.s[1..]);
          match DecMany(f, d.s[0], n, d.At(rest).Deeper(1))
          case Got(xs, d') => Got(Slice(xs), d'.Deeper(-1))
          case Lost(e) => Lost(e)
  }

  function DecMany(f: Format, t: byte, n: nat, d: Dec): (r: Res<seq<Tree>>)
    ensures r.Got? ==> |r.d.s| <= |d.s| && r.d.end == d.end
    decreases |d.s|, 2, n
  {
    if n == 0 then Got([], d)
    else
      match DecPayload(f, t, d)
      case Lost(e) => Lost(e)
      case Got(x, d') =>
        match DecMany(f, t, n - 1, d')
        case Lost(e) => Lost(e)
        case Got(xs, d'') => Got([x] + xs, d'')
  }

  function DecEntries(f: Format, d: Dec): (r: Res<seq<Entry>>)
    ensures r.Got? ==> |r.d.s| < |d.s| && r.d.end == d.end
    decreases |d.s|, 0
  {
    match DecTag(f, d)
    case Lost(e) => Lost(e)
    case Got((t, name), d') =>
      DecTagFacts(f, d, []);
      if !Known(t) then Lost(UnknownTag)
      else if t == TAG_END then Got([], d')
      else
        match DecPayload(f, t, d')
        case Lost(e) => Lost(e)
        case Got(x, d'') =>
          match DecEntries(f, d'')
          case Lost(e) => Lost(e)
          case Got(es, d3) => Got([Entry(name, x)] + es, d3)
  }

  /** Decoder.Decode into a fresh any: the root tag, then its payload. */
  function Decode(f: Format, s: Bytes): Res<Tree>
  {
    match DecTag(f, Dec(s, |s|, 0))
    case Lost(e) => Lost(e)
    case Got((t, _), d) => DecPayload(f, t, d)
  }

  /** The Go value of a tree that was read: an empty list of bytes becomes an untyped empty list. */
  function ValueOf(o: Tree): Value
  {
    match o
    case Node(leaf) => if leaf == ByteList([]) then List([]) else Atom(leaf)
    case Slice(xs) => List(ValuesOf(xs))
    case Struct(entries) => Compound(FieldsOf(entries))
  }

  function ValuesOf(xs: seq<Tree>): (r: seq<Value>)
    ensures |r| == |xs|
    ensures forall i | 0 <= i < |xs| :: r[i] == ValueOf(xs[i])
  {
    if xs == [] then [] else [ValueOf(xs[0])] + ValuesOf(xs[1..])
  }

  /** m[name] = v for every entry read, in turn. */
  function FieldsOf(es: seq<Entry>): map<Bytes, Value>
  {
    if es == [] then map[]
    else FieldsOf(es[..|es| - 1])[es[|es| - 1].name := ValueOf(es[|es| - 1].tree)]
  }

  // --------------------------------------- success depends on the prefix only

  lemma {:induction false} PayloadPrefix(f: Format, t: byte, d: Dec, x: Bytes)
    requires DecPayload(f, t, d).Got?
    ensures DecPayload(f, t, d.Append(x)) == Got(DecPayload(f, t, d).v, DecPayload(f, t, d).d.Append(x))
    decreases |d.s|, 1
  {
    if t == TAG_SLICE {
      ListPrefix(f, d, x);
    } else if t == TAG_STRUCT {
      DeeperAppends(d, x);
      EntriesPrefix(f, d.Deeper(1), x);
    } else {
      DecLeafFacts(f, t, d.s, x);
    }
  }

  lemma DeeperAppends(d: Dec, x: Bytes)
    ensures d.Append(x).Deeper(1) == d.Deeper(1).Append(x)
  {
  }

  lemma {:induction false} ListPrefix(f: Format, d: Dec, x: Bytes)
    requires DecList(f, d).Got?
    ensures DecList(f, d.Append(x)) == Got(DecList(f, d).v, DecList(f, d).d.Append(x))
    decreases |d.s|, 0
  {
    hide DecTypedList, DecInt, TypedElement;
    TakePrefix(1, d.s, x);
    if TypedElement(d.s[0]) {
      DecTypedListFacts(f, d.s[0], d.s[1..], x);
    } else {
      DecInt32Range(f, d.s[1..]);
      DecIntPrefix(f, W32, d.s[1..], x);
      var n := DecInt(f, W32, d.s[1..]);
      ManyPrefix(f, d.s[0], n.value, d.At(n.rest).Deeper(1), x);
    }
  }

  lemma {:induction false} ManyPrefix(f: Format, t: byte, n: nat, d: Dec, x: Bytes)
    requires DecMany(f, t, n, d).Got?
    ensures DecMany(f, t, n, d.Append(x)) == Got(DecMany(f, t, n, d).v, DecMany(f, t, n, d).d.Append(x))
    decreases |d.s|, 2, n
  {
    if n > 0 {
      PayloadPrefix(f, t, d, x);
      ManyPrefix(f, t, n - 1, DecPayload(f, t, d).d, x);
    }
  }

  lemma {:induction false} EntriesPrefix(f: Format, d: Dec, x: Bytes)
    requires DecEntries(f, d).Got?
    ensures DecEntries(f, d.Append(x)) == Got(DecEntries(f, d).v, DecEntries(f, d).d.Append(x))
    decreases |d.s|, 0
  {
    DecTagFacts(f, d, x);
    var tag := DecTag(f, d);
    if tag.v.0 != TAG_END {
      PayloadPrefix(f, tag.v.0, tag.d, x);
      EntriesPrefix(f, DecPayload(f, tag.v.0, tag.d).d, x);
    }
  }

  /** Appending bytes to an input that decodes keeps the tree and leaves the appended bytes behind it. */
  lemma DecodePrefix(f: Format, s: Bytes, x: Bytes)
    requires Decode(f, s).Got?
    ensures Decode(f, s + x) == Got(Decode(f, s).v, Decode(f, s).d.Append(x))
  {
    var d := Dec(s, |s|, 0);
    assert Dec(s + x, |s + x|, 0) == d.Append(x);
    DecTagFacts(f, d, x);
    var tag := DecTag(f, d);
    PayloadPrefix(f, tag.v.0, tag.d, x);
  }

  // ---------------------------------------------------------- the depth leak

  /** How many lists of bytes, ints and longs a tree holds. */
  function TypedLists(o: Tree): nat
  {
    match o
    case Node(leaf) => if leaf.TypedList() then 1 else 0
    case Slice(xs) => TypedListsOfAll(xs)
    case Struct(es) => TypedListsOfEntries(es)
  }

  function TypedListsOfAll(xs: seq<Tree>): nat
  {
    if xs == [] then 0 else TypedLists(xs[0]) + TypedListsOfAll(xs[1..])
  }

  function TypedListsOfEntries(es: seq<Entry>): nat
  {
    if es == [] then 0 else TypedLists(es[0].tree) + TypedListsOfEntries(es[1..])
  }

  /** Reading a payload raises the depth counter by the number of typed lists read, and never lowers it. */
  lemma {:induction false} DepthGrows(f: Format, t: byte, d: Dec)
    requires DecPayload(f, t, d).Got?
    ensures DecPayload(f, t, d).d.depth == d.depth + TypedLists(DecPayload(f, t, d).v)
    decreases |d.s|, 1
  {
    if t == TAG_STRUCT {
      EntriesDepthGrows(f, d.Deeper(1));
    } else if t == TAG_SLICE && !TypedElement(d.s[0]) {
      DecInt32Range(f, d.s[1..]);
      var n := DecInt(f, W32, d.s[1..]);
      ManyDepthGrows(f, d.s[0], n.value, d.At(n.rest).Deeper(1));
    } else if t == TAG_SLICE {
      DecTypedListFacts(f, d.s[0], d.s[1..], []);
    } else {
      DecLeafFacts(f, t, d.s, []);
    }
  }

  lemma {:induction false} ManyDepthGrows(f: Format, t: byte, n: nat, d: Dec)
    requires DecMany(f, t, n, d).Got?
    ensures DecMany(f, t, n, d).d.depth == d.depth + TypedListsOfAll(DecMany(f, t, n, d).v)
    decreases |d.s|, 2, n
  {
    if n > 0 {
      DepthGrows(f, t, d);
      ManyDepthGrows(f, t, n - 1, DecPayload(f, t, d).d);
      var x, xs := DecPayload(f, t, d).v, DecMany(f, t, n - 1, DecPayload(f, t, d).d).v;
      assert ([x] + xs)[1..] == xs;
    }
  }

  lemma {:induction false} EntriesDepthGrows(f: Format, d: Dec)
    requires DecEntries(f, d).Got?
    ensures DecEntries(f, d).d.depth == d.depth + TypedListsOfEntries(DecEntries(f, d).v)
    decreases |d.s|, 0
  {
    var tag := DecTag(f, d);
    DecTagFacts(f, d, []);
    if tag.v.0 != TAG_END {
      var p := DecPayload(f, tag.v.0, tag.d);
      DepthGrows(f, tag.v.0, tag.d);
      EntriesDepthGrows(f, p.d);
      var es := DecEntries(f, p.d).v;
      assert ([Entry(tag.v.1, p.v)] + es)[1..] == es;
    }
  }
}
