/**
 * Decoding what was encoded.
 *
 * The decoder's depth counter leaks: it stays raised after every list of bytes, ints or longs. An encoding is therefore
 * not always accepted by the decoder. Walk computes, from the tree alone, how the counter and the offset run; the main
 * theorem says that the decoder returns the tree when the walk goes through and the walk's error when it does not.
 */
module NbtRoundTrip {
  import opened Wire
  import opened Varints
  import opened NbtFormat
  import opened NbtTree
  import opened NbtDecode

  // ------------------------------------------------------------ typed lists

  function BytesOf(xs: seq<Tree>): (r: Bytes)
    ensures |r| == |xs|
  {
    seq(|xs|, i requires 0 <= i < |xs| => if xs[i].Node? && xs[i].leaf.Byte? then xs[i].leaf.b else 0)
  }

  function IntOf(o: Tree): int
  {
    if o.Node? && o.leaf.Int32? then o.leaf.x else if o.Node? && o.leaf.Int64? then o.leaf.x else 0
  }

  function IntsOf(xs: seq<Tree>): (r: seq<int>)
    ensures |r| == |xs|
    ensures forall i | 0 <= i < |xs| :: r[i] == IntOf(xs[i])
  {
    if xs == [] then [] else [IntOf(xs[0])] + IntsOf(xs[1..])
  }

  /** The typed list that a list of bytes, ints or longs is read as. */
  function TypedLeaf(xs: seq<Tree>): Leaf
    requires xs != []
  {
    if xs[0].Tag() == TAG_BYTE then ByteList(BytesOf(xs))
    else if xs[0].Tag() == TAG_INT32 then Int32List(IntsOf(xs))
    else Int64List(IntsOf(xs))
  }

  /** The tree as it is read back: lists of bytes, ints and longs come back typed. */
  function Raw(o: Tree): Tree
  {
    match o
    case Node(_) => o
    case Slice(xs) => if TypedElement(ElementTag(xs)) then Node(TypedLeaf(xs)) else Slice(RawAll(xs))
    case Struct(es) => Struct(RawEntries(es))
  }

  function RawAll(xs: seq<Tree>): (r: seq<Tree>)
    ensures |r| == |xs|
    ensures forall i | 0 <= i < |xs| :: r[i] == Raw(xs[i])
  {
    if xs == [] then [] else [Raw(xs[0])] + RawAll(xs[1..])
  }

  function RawEntries(es: seq<Entry>): (r: seq<Entry>)
    ensures |r| == |es|
    ensures forall i | 0 <= i < |es| :: r[i] == Entry(es[i].name, Raw(es[i].tree))
  {
    if es == [] then [] else [Entry(es[0].name, Raw(es[0].tree))] + RawEntries(es[1..])
  }

  // -------------------------------------------------------------------- walk

  datatype Walk = At(depth: int) | Stopped(error: Error)

  /** The two limits the decoder checks before every tag. */
  function WalkTag(f: Format, depth: int, off: int): Walk
  {
    if depth >= MAX_DEPTH then Stopped(DepthReached)
    else if off >= MAX_NETWORK_OFFSET && f.Varies() then Stopped(BytesReached)
    else At(depth)
  }

  function Up(w: Walk): Walk
  {
    if w.At? then At(w.depth - 1) else w
  }

  /** The decoder's depth counter after a payload that starts at the given counter and offset. */
  function WalkPayload(f: Format, k: int, o: Tree, depth: int, off: int): Walk
    decreases o, 0
  {
    match o
    case Node(leaf) => At(if leaf.TypedList() then depth + 1 else depth)
    case Slice(xs) =>
      if TypedElement(ElementTag(xs)) then At(depth + 1)
      else Up(WalkAll(f, k + 1, xs, depth + 1, off + 1 + |EncInt(f, W32, |xs|)|))
    case Struct(es) => Up(WalkEntries(f, k + 1, es, depth + 1, off))
  }

  function WalkAll(f: Format, k: int, xs: seq<Tree>, depth: int, off: int): Walk
    decreases xs, 1
  {
    if xs == [] then At(depth)
    else
      match WalkPayload(f, k, xs[0], depth, off)
      case Stopped(e) => Stopped(e)
      case At(depth') => WalkAll(f, k, xs[1..], depth', off + Length(EncPayload(f, k, xs[0])))
  }

  function WalkEntries(f: Format, k: int, es: seq<Entry>, depth: int, off: int): Walk
    decreases es, 1
  {
    if es == [] || WalkTag(f, depth, off).Stopped? then WalkTag(f, depth, off)
    else
      match WalkPayload(f, k, es[0].tree, depth, off + Length(EncTag(f, k, es[0].tree.Tag(), es[0].name)))
      case Stopped(e) => Stopped(e)
      case At(depth') => WalkEntries(f, k, es[1..], depth', off + Length(EncEntry(f, k, es[0])))
  }

  function Length(e: Encoded): nat
  {
    if e.Wrote? then |e.bytes| else 0
  }

  /** The walk of a whole document. The root tag is at depth and offset zero. */
  function WalkRoot(f: Format, o: Tree): Walk
  {
    WalkPayload(f, 0, o, 0, Length(EncTag(f, 0, o.Tag(), [])))
  }

  /** The decoder's outcome when it meets an encoding of o: the tree at the walked depth, or the walk's error. */
  function Outcome<T>(w: Walk, v: T, d: Dec): Res<T>
  {
    match w
    case At(depth) => Got(v, Dec(d.s, d.end, depth))
    case Stopped(e) => Lost(e)
  }

  // ------------------------------------------------------------------ leaves

  lemma SizedDecodes(f: Format, bytes: Bytes, t: Bytes)
    requires |bytes| < 0x8000_0000
    ensures DecSized(f, EncSized(f, |bytes|, bytes).bytes + t) == Ok(bytes, t)
  {
    assert EncSized(f, |bytes|, bytes).bytes + t == EncInt(f, W32, |bytes|) + (bytes + t);
    Int32Bounds(|bytes|);
    IntRoundTrip(f, W32, |bytes|, bytes + t);
    TakeAppended(bytes, t);
  }

  lemma ScalarDecodes(f: Format, leaf: Leaf, t: Bytes)
    requires leaf.Valid() && leaf.Tag() <= TAG_INT64
    ensures EncLeaf(f, leaf).Wrote? && DecLeaf(f, leaf.Tag(), EncLeaf(f, leaf).bytes + t) == Ok(leaf, t)
  {
    match leaf
    case Byte(b) => assert ([b] + t)[1..] == t;
    case Int16(x) => FixedIntRoundTrip(f, 2, x, t);
    case Int32(x) => IntRoundTrip(f, W32, x, t);
    case Int64(x) => IntRoundTrip(f, W64, x, t);
  }

  lemma FloatDecodes(f: Format, leaf: Leaf, t: Bytes)
    requires leaf.Valid() && (leaf.Float32? || leaf.Float64?)
    ensures EncLeaf(f, leaf).Wrote? && DecLeaf(f, leaf.Tag(), EncLeaf(f, leaf).bytes + t) == Ok(leaf, t)
  {
    WordRoundTrips(f, if leaf.Float32? then 4 else 8, leaf.bits, t);
  }

  lemma LeafDecodes(f: Format, leaf: Leaf, t: Bytes)
    requires leaf.Valid() && !leaf.TypedList() && EncLeaf(f, leaf).Wrote?
    ensures DecLeaf(f, leaf.Tag(), EncLeaf(f, leaf).bytes + t) == Ok(leaf, t)
  {
    hide DecInt, DecFixed, EncInt, EncFixed, DecString, EncString, DecInts, EncInts;
    match leaf
    case ByteArray(bytes) => SizedDecodes(f, bytes, t);
    case String(bytes) => StringRoundTrip(f, bytes, t);
    case Int32Array(xs) => IntsRoundTrip(f, W32, xs, t);
    case Int64Array(xs) => IntsRoundTrip(f, W64, xs, t);
    case Float32(_) => FloatDecodes(f, leaf, t);
    case Float64(_) => FloatDecodes(f, leaf, t);
    case _ => ScalarDecodes(f, leaf, t);
  }

  lemma TypedListDecodes(f: Format, leaf: Leaf, t: Bytes)
    requires leaf.Valid() && leaf.TypedList()
    ensures EncLeaf(f, leaf).Wrote? && EncLeaf(f, leaf).bytes != []
    ensures var s := EncLeaf(f, leaf).bytes + t;
      TypedElement(s[0]) && DecTypedList(f, s[0], s[1..]) == Ok(leaf, t)
  {
    match leaf
    case ByteList(bytes) =>
      SizedDecodes(f, bytes, t);
      HeaderDrops(TAG_BYTE, EncSized(f, |bytes|, bytes).bytes, t);
    case Int32List(xs) =>
      IntsRoundTrip(f, W32, xs, t);
      HeaderDrops(TAG_INT32, EncInt(f, W32, |xs|) + EncInts(f, W32, xs), t);
    case Int64List(xs) =>
      IntsRoundTrip(f, W64, xs, t);
      HeaderDrops(TAG_INT64, EncInt(f, W32, |xs|) + EncInts(f, W64, xs), t);
  }

  lemma HeaderDrops(b: byte, s: Bytes, t: Bytes)
    ensures ([b] + s + t)[0] == b && ([b] + s + t)[1..] == s + t
  {
  }

  lemma NodeDecodes(f: Format, leaf: Leaf, d: Dec, t: Bytes)
    requires leaf.Valid() && EncLeaf(f, leaf).Wrote? && d.s == EncLeaf(f, leaf).bytes + t
    ensures DecPayload(f, leaf.Tag(), d) ==
            Got(Node(leaf), d.At(t).Deeper(if leaf.TypedList() then 1 else 0))
  {
    if leaf.TypedList() {
      TypedListDecodes(f, leaf, t);
    } else {
      LeafDecodes(f, leaf, t);
    }
  }

  // ----------------------------------------------------- untyped lists of a typed kind

  predicate SameTag(xs: seq<Tree>, t: byte)
  {
    forall i | 0 <= i < |xs| :: Sound(xs[i]) && xs[i].Tag() == t
  }

  lemma {:induction false} EncAllOfBytes(f: Format, k: int, xs: seq<Tree>)
    requires SameTag(xs, TAG_BYTE)
    ensures EncAll(f, k, xs) == Wrote(BytesOf(xs))
  {
    if xs != [] {
      EncAllOfBytes(f, k, xs[1..]);
      assert BytesOf(xs) == [xs[0].leaf.b] + BytesOf(xs[1..]);
    }
  }

  lemma {:induction false} EncAllOfInts(f: Format, k: int, w: Width, xs: seq<Tree>)
    requires SameTag(xs, if w == W32 then TAG_INT32 else TAG_INT64)
    ensures EncAll(f, k, xs) == Wrote(EncInts(f, w, IntsOf(xs)))
    ensures InRange(w, IntsOf(xs))
  {
    if xs != [] {
      EncAllOfInts(f, k, w, xs[1..]);
      assert EncPayload(f, k, xs[0]) == Wrote(EncInt(f, w, IntOf(xs[0])));
      assert IntsOf(xs)[1..] == IntsOf(xs[1..]);
      assert forall i | 1 <= i < |xs| :: IntsOf(xs)[i] == IntsOf(xs[1..])[i - 1];
    }
  }

  /** An untyped list of bytes, ints or longs is written exactly as the typed list it is read as. */
  lemma TypedSliceIsLeaf(f: Format, k: int, xs: seq<Tree>)
    requires Sound(Slice(xs)) && TypedElement(ElementTag(xs))
    ensures EncPayload(f, k, Slice(xs)) == EncLeaf(f, TypedLeaf(xs)) && TypedLeaf(xs).Valid()
  {
    var t := xs[0].Tag();
    assert SameTag(xs, t);
    if t == TAG_BYTE {
      EncAllOfBytes(f, k + 1, xs);
    } else {
      EncAllOfInts(f, k + 1, if t == TAG_INT32 then W32 else W64, xs);
    }
    var leaf := TypedLeaf(xs);
    var body := EncAll(f, k + 1, xs).bytes;
    assert [t] + EncInt(f, W32, |xs|) + body == [t] + (EncInt(f, W32, |xs|) + body);
  }

  // ----------------------------------------------------------------- nesting

  lemma TagDecodes(f: Format, k: int, t: byte, name: Bytes, d: Dec, x: Bytes)
    requires EncTag(f, k, t, name).Wrote? && d.s == EncTag(f, k, t, name).bytes + x
    requires t != TAG_END && (k == 0 <==> d.depth == 0)
    ensures WalkTag(f, d.depth, d.Off()).At? ==>
              DecTag(f, d) == Got((t, if Nameless(f, t, k) then [] else name), d.At(x))
    ensures WalkTag(f, d.depth, d.Off()).Stopped? ==> DecTag(f, d) == Lost(WalkTag(f, d.depth, d.Off()).error)
  {
    if Nameless(f, t, k) {
      assert d.s[1..] == x;
    } else {
      assert d.s[1..] == EncString(f, name).bytes + x;
      StringRoundTrip(f, name, x);
    }
  }

  lemma TagsAreKnown(o: Tree)
    ensures TAG_END < o.Tag() && Known(o.Tag())
  {
  }

  lemma {:induction false} PayloadDecodes(f: Format, k: int, o: Tree, d: Dec, t: Bytes)
    requires Sound(o) && k >= 0 && d.depth >= 0
    requires EncPayload(f, k, o).Wrote? && d.s == EncPayload(f, k, o).bytes + t
    ensures DecPayload(f, o.Tag(), d) == Outcome(WalkPayload(f, k, o, d.depth, d.Off()), Raw(o), d.At(t))
    decreases o, 0
  {
    hide DecMany, WalkAll, DecEntries;
    match o
    case Node(leaf) => NodeDecodes(f, leaf, d, t);
    case Slice(xs) =>
      if TypedElement(ElementTag(xs)) {
        TypedSliceDecodes(f, k, xs, d, t);
      } else {
        SliceDecodes(f, k, xs, d, t);
      }
    case Struct(es) =>
      StructEnds(f, k, es, t);
      EntriesDecode(f, k + 1, es, d.Deeper(1), t);
  }

  lemma TypedSliceDecodes(f: Format, k: int, xs: seq<Tree>, d: Dec, t: Bytes)
    requires Sound(Slice(xs)) && k >= 0 && d.depth >= 0 && TypedElement(ElementTag(xs))
    requires EncPayload(f, k, Slice(xs)).Wrote? && d.s == EncPayload(f, k, Slice(xs)).bytes + t
    ensures DecPayload(f, TAG_SLICE, d) ==
            Outcome(WalkPayload(f, k, Slice(xs), d.depth, d.Off()), Raw(Slice(xs)), d.At(t))
  {
    TypedSliceIsLeaf(f, k, xs);
    NodeDecodes(f, TypedLeaf(xs), d, t);
  }

  lemma StructEnds(f: Format, k: int, es: seq<Entry>, t: Bytes)
    requires EncPayload(f, k, Struct(es)).Wrote?
    ensures EncEntries(f, k + 1, es).Wrote?
    ensures EncPayload(f, k, Struct(es)).bytes + t == EncEntries(f, k + 1, es).bytes + ([TAG_END] + t)
  {
  }

  /** DecList, DecMany and DecEntries opened once. */
  lemma ListOpens(f: Format, d: Dec, n: nat, rest: Bytes)
    requires d.s != [] && Known(d.s[0]) && !TypedElement(d.s[0]) && DecInt(f, W32, d.s[1..]) == Ok(n, rest)
    ensures DecList(f, d) == match DecMany(f, d.s[0], n, d.At(rest).Deeper(1))
                             case Got(xs, d') => Got(Slice(xs), d'.Deeper(-1))
                             case Lost(e) => Lost(e)
  {
  }

  lemma ManyOpens(f: Format, t: byte, n: nat, d: Dec, x: Tree, d': Dec)
    requires n > 0 && DecPayload(f, t, d) == Got(x, d')
    ensures DecMany(f, t, n, d) == match DecMany(f, t, n - 1, d')
                                   case Lost(e) => Lost(e)
                                   case Got(xs, d'') => Got([x] + xs, d'')
  {
  }

  lemma EntriesOpen(f: Format, d: Dec, t: byte, name: Bytes, d': Dec)
    requires DecTag(f, d) == Got((t, name), d') && Known(t) && t != TAG_END
    ensures DecPayload(f, t, d').Lost? ==> DecEntries(f, d) == Lost(DecPayload(f, t, d').error)
    ensures DecPayload(f, t, d').Got? ==>
      DecEntries(f, d) == match DecEntries(f, DecPayload(f, t, d').d)
                          case Lost(e) => Lost(e)
                          case Got(es, d3) => Got([Entry(name, DecPayload(f, t, d').v)] + es, d3)
  {
  }

  lemma {:induction false} SliceDecodes(f: Format, k: int, xs: seq<Tree>, d: Dec, t: Bytes)
    requires Sound(Slice(xs)) && k >= 0 && d.depth >= 0 && !TypedElement(ElementTag(xs))
    requires EncPayload(f, k, Slice(xs)).Wrote? && d.s == EncPayload(f, k, Slice(xs)).bytes + t
    ensures DecList(f, d) == Outcome(WalkPayload(f, k, Slice(xs), d.depth, d.Off()), Slice(RawAll(xs)), d.At(t))
    decreases xs, 2
  {
    hide WalkAll, DecMany, EncAll, RawAll;
    SliceBytes(f, k, xs, t);
    var body := EncAll(f, k + 1, xs).bytes + t;
    SliceHeader(f, xs, d, body);
    var inner := d.At(body).Deeper(1);
    AllDecode(f, k + 1, ElementTag(xs), xs, inner, t);
    SliceWalks(f, k, xs, d.depth, d.Off(), inner.Off());
  }

  lemma SliceBytes(f: Format, k: int, xs: seq<Tree>, t: Bytes)
    requires EncPayload(f, k, Slice(xs)).Wrote?
    ensures EncAll(f, k + 1, xs).Wrote?
    ensures EncPayload(f, k, Slice(xs)).bytes + t ==
            [ElementTag(xs)] + (EncInt(f, W32, |xs|) + (EncAll(f, k + 1, xs).bytes + t))
  {
  }

  lemma SliceWalks(f: Format, k: int, xs: seq<Tree>, depth: int, off: int, next: int)
    requires !TypedElement(ElementTag(xs)) && next == off + 1 + |EncInt(f, W32, |xs|)|
    ensures WalkPayload(f, k, Slice(xs), depth, off) == Up(WalkAll(f, k + 1, xs, depth + 1, next))
  {
  }

  lemma SliceHeader(f: Format, xs: seq<Tree>, d: Dec, body: Bytes)
    requires |xs| < 0x8000_0000 && !TypedElement(ElementTag(xs))
    requires d.s == [ElementTag(xs)] + (EncInt(f, W32, |xs|) + body)
    ensures DecList(f, d) == match DecMany(f, ElementTag(xs), |xs|, d.At(body).Deeper(1))
                             case Got(ys, d') => Got(Slice(ys), d'.Deeper(-1))
                             case Lost(e) => Lost(e)
    ensures d.At(body).Off() == d.Off() + 1 + |EncInt(f, W32, |xs|)|
  {
    assert d.s[1..] == EncInt(f, W32, |xs|) + body;
    Int32Bounds(|xs|);
    IntRoundTrip(f, W32, |xs|, body);
    if xs != [] { TagsAreKnown(xs[0]); }
    ListOpens(f, d, |xs|, body);
  }

  lemma {:induction false} AllDecode(f: Format, k: int, tag: byte, xs: seq<Tree>, d: Dec, t: Bytes)
    requires SameTag(xs, tag) && k >= 0 && d.depth >= 0
    requires EncAll(f, k, xs).Wrote? && d.s == EncAll(f, k, xs).bytes + t
    ensures DecMany(f, tag, |xs|, d) == Outcome(WalkAll(f, k, xs, d.depth, d.Off()), RawAll(xs), d.At(t))
    decreases xs, 1
  {
    if xs == [] {
      assert d.s == t;
    } else {
      var rest := EncAll(f, k, xs[1..]).bytes + t;
      assert d.s == EncPayload(f, k, xs[0]).bytes + rest;
      PayloadDecodes(f, k, xs[0], d, rest);
      var w, after := WalkPayload(f, k, xs[0], d.depth, d.Off()), d.end - |rest|;
      AllWalks(f, k, xs, d.depth, d.Off(), after);
      if w.At? {
        WalkNonNegative(f, k, xs[0], d.depth, d.Off());
        var d' := Dec(rest, d.end, w.depth);
        AllDecode(f, k, tag, xs[1..], d', t);
        assert d'.Off() == after;
        ManyOpens(f, tag, |xs|, d, Raw(xs[0]), d');
      }
    }
  }

  /** WalkAll opened once: the elements after the first are walked at offset next. */
  lemma AllWalks(f: Format, k: int, xs: seq<Tree>, depth: int, off: int, next: int)
    requires xs != [] && next == off + Length(EncPayload(f, k, xs[0]))
    ensures var w := WalkPayload(f, k, xs[0], depth, off);
      WalkAll(f, k, xs, depth, off) == if w.Stopped? then w else WalkAll(f, k, xs[1..], w.depth, next)
  {
  }

  lemma {:induction false} EntriesDecode(f: Format, k: int, es: seq<Entry>, d: Dec, t: Bytes)
    requires Sound(Struct(es)) && k > 0 && d.depth > 0
    requires EncEntries(f, k, es).Wrote? && d.s == EncEntries(f, k, es).bytes + ([TAG_END] + t)
    ensures DecEntries(f, d) == Outcome(WalkEntries(f, k, es, d.depth, d.Off()), RawEntries(es), d.At(t))
    decreases es, 1
  {
    if es == [] {
      assert d.s == [TAG_END] + t;
      assert d.s[1..] == t;
    } else if WalkTag(f, d.depth, d.Off()).At? {
      var e := es[0];
      EntryBytes(f, k, es, [TAG_END] + t);
      var rest := EncEntries(f, k, es[1..]).bytes + ([TAG_END] + t);
      var body := d.At(EncPayload(f, k, e.tree).bytes + rest);
      EntryHeader(f, k, e, d, body.s);
      PayloadDecodes(f, k, e.tree, body, rest);
      var w := WalkPayload(f, k, e.tree, body.depth, body.Off());
      var after := d.end - |rest|;
      EntryWalks(f, k, es, d.depth, d.Off(), body.Off(), after);
      if w.At? {
        WalkNonNegative(f, k, e.tree, body.depth, body.Off());
        var d' := Dec(rest, d.end, w.depth);
        EntriesDecode(f, k, es[1..], d', t);
        assert d'.Off() == after;
      }
    } else {
      EntryStops(f, k, es[0], d);
    }
  }

  lemma EntryBytes(f: Format, k: int, es: seq<Entry>, t: Bytes)
    requires es != [] && EncEntries(f, k, es).Wrote?
    ensures EncEntry(f, k, es[0]).Wrote? && EncEntries(f, k, es[1..]).Wrote?
    ensures EncTag(f, k, es[0].tree.Tag(), es[0].name).Wrote? && EncPayload(f, k, es[0].tree).Wrote?
    ensures EncEntries(f, k, es).bytes + t ==
            EncTag(f, k, es[0].tree.Tag(), es[0].name).bytes
            + (EncPayload(f, k, es[0].tree).bytes + (EncEntries(f, k, es[1..]).bytes + t))
  {
    var tag, body := EncTag(f, k, es[0].tree.Tag(), es[0].name), EncPayload(f, k, es[0].tree);
    assert EncEntry(f, k, es[0]) == Then(tag, body);
    var rest := EncEntries(f, k, es[1..]).bytes;
    assert tag.bytes + body.bytes + rest + t == tag.bytes + (body.bytes + (rest + t));
  }

  lemma EntryHeader(f: Format, k: int, e: Entry, d: Dec, body: Bytes)
    requires k > 0 && d.depth > 0 && EncTag(f, k, e.tree.Tag(), e.name).Wrote?
    requires d.s == EncTag(f, k, e.tree.Tag(), e.name).bytes + body && WalkTag(f, d.depth, d.Off()).At?
    ensures var t, d' := e.tree.Tag(), d.At(body);
      && (DecPayload(f, t, d').Lost? ==> DecEntries(f, d) == Lost(DecPayload(f, t, d').error))
      && (DecPayload(f, t, d').Got? ==>
            DecEntries(f, d) == match DecEntries(f, DecPayload(f, t, d').d)
                                case Lost(e) => Lost(e)
                                case Got(es, d3) => Got([Entry(e.name, DecPayload(f, t, d').v)] + es, d3))
  {
    TagsAreKnown(e.tree);
    TagDecodes(f, k, e.tree.Tag(), e.name, d, body);
    EntriesOpen(f, d, e.tree.Tag(), e.name, d.At(body));
  }

  lemma EntryStops(f: Format, k: int, e: Entry, d: Dec)
    requires WalkTag(f, d.depth, d.Off()).Stopped?
    ensures DecEntries(f, d) == Lost(WalkTag(f, d.depth, d.Off()).error)
  {
  }

  /** WalkEntries opened once: the payload is walked at offset at, the entries after it at offset next. */
  lemma EntryWalks(f: Format, k: int, es: seq<Entry>, depth: int, off: int, at: int, next: int)
    requires es != [] && WalkTag(f, depth, off).At?
    requires EncEntry(f, k, es[0]).Wrote?
    requires at == off + Length(EncTag(f, k, es[0].tree.Tag(), es[0].name))
    requires next == at + Length(EncPayload(f, k, es[0].tree))
    ensures var w := WalkPayload(f, k, es[0].tree, depth, at);
      WalkEntries(f, k, es, depth, off) ==
      if w.Stopped? then w else WalkEntries(f, k, es[1..], w.depth, next)
  {
  }

  /** A walk never ends below where it starts. */
  lemma {:induction false} WalkNonNegative(f: Format, k: int, o: Tree, depth: int, off: int)
    requires WalkPayload(f, k, o, depth, off).At?
    ensures WalkPayload(f, k, o, depth, off).depth >= depth
    decreases o, 0
  {
    match o
    case Node(_) =>
    case Slice(xs) =>
      if !TypedElement(ElementTag(xs)) {
        WalkAllNonNegative(f, k + 1, xs, depth + 1, off + 1 + |EncInt(f, W32, |xs|)|);
      }
    case Struct(es) => WalkEntriesNonNegative(f, k + 1, es, depth + 1, off);
  }

  lemma {:induction false} WalkAllNonNegative(f: Format, k: int, xs: seq<Tree>, depth: int, off: int)
    requires WalkAll(f, k, xs, depth, off).At?
    ensures WalkAll(f, k, xs, depth, off).depth >= depth
    decreases xs, 1
  {
    if xs != [] {
      WalkNonNegative(f, k, xs[0], depth, off);
      WalkAllNonNegative(f, k, xs[1..], WalkPayload(f, k, xs[0], depth, off).depth,
                         off + Length(EncPayload(f, k, xs[0])));
    }
  }

  lemma {:induction false} WalkEntriesNonNegative(f: Format, k: int, es: seq<Entry>, depth: int, off: int)
    requires WalkEntries(f, k, es, depth, off).At?
    ensures WalkEntries(f, k, es, depth, off).depth >= depth
    decreases es, 1
  {
    if es != [] {
      var off' := off + Length(EncTag(f, k, es[0].tree.Tag(), es[0].name));
      WalkNonNegative(f, k, es[0].tree, depth, off');
      WalkEntriesNonNegative(f, k, es[1..], WalkPayload(f, k, es[0].tree, depth, off').depth,
                             off + Length(EncEntry(f, k, es[0])));
    }
  }

  /**
   * The decoder on anything the encoder wrote, whatever follows it, in every encoding, on both hosts and for every key
   * order: it returns the tree and leaves the rest exactly when the walk goes through, and otherwise fails as the walk
   * does.
   */
  lemma DecodeOfEncode(f: Format, o: Tree, t: Bytes)
    requires Sound(o) && Encode(f, o).Wrote?
    ensures var s := Encode(f, o).bytes + t;
      Decode(f, s) == Outcome(WalkRoot(f, o), Raw(o), Dec(t, |s|, 0))
  {
    var s := Encode(f, o).bytes + t;
    var d := Dec(s, |s|, 0);
    var body := EncPayload(f, 0, o).bytes + t;
    assert s == EncTag(f, 0, o.Tag(), []).bytes + body;
    TagsAreKnown(o);
    TagDecodes(f, 0, o.Tag(), [], d, body);
    PayloadDecodes(f, 0, o, d.At(body), t);
  }
}
