/** The encoder as it runs: methods that append to the writer, and visit the keys of a map in an order of their own. */
module NbtEncoder {
  import opened Wire
  import opened Varints
  import opened NbtFormat
  import opened NbtTree
  import opened NbtValues
  import NbtLayout

  /** The ranges and lengths of Go values. */
  predicate InGo(v: Value)
  {
    match v
    case Atom(leaf) => leaf.Valid()
    case List(xs) => |xs| < 0x8000_0000 && forall i | 0 <= i < |xs| :: InGo(xs[i])
    case Compound(m) => forall k | k in m :: InGo(m[k])
  }

  /** What the encoder accepts does not depend on the order in which it visits keys. */
  predicate Accepted(depth: int, v: Value)
    decreases v
  {
    match v
    case Atom(leaf) => leaf.String? ==> |leaf.bytes| <= MAX_STRING
    case List(xs) => forall i | 0 <= i < |xs| :: Accepted(depth + 1, xs[i])
    case Compound(m) => forall k | k in m ::
      depth + 1 < MAX_DEPTH && |k| <= MAX_STRING && Accepted(depth + 1, m[k])
  }

  lemma {:induction false} AcceptedIffEncodable(depth: int, o: Tree)
    requires Distinct(o)
    ensures Accepted(depth, Erase(o)) <==> Encodable(depth, o)
    decreases o
  {
    match o
    case Node(_) =>
    case Slice(xs) =>
      forall i | 0 <= i < |xs| ensures Accepted(depth + 1, Erase(xs[i])) <==> Encodable(depth + 1, xs[i]) {
        AcceptedIffEncodable(depth + 1, xs[i]);
      }
    case Struct(es) =>
      EraseEntriesHolds(es);
      forall i | 0 <= i < |es| ensures Accepted(depth + 1, Erase(es[i].tree)) <==> Encodable(depth + 1, es[i].tree) {
        AcceptedIffEncodable(depth + 1, es[i].tree);
      }
      StructAccepted(depth, es, EraseEntries(es));
  }

  lemma StructAccepted(depth: int, es: seq<Entry>, m: map<Bytes, Value>)
    requires forall i | 0 <= i < |es| :: es[i].name in m && m[es[i].name] == Erase(es[i].tree)
    requires forall k | k in m :: exists i | 0 <= i < |es| :: es[i].name == k
    requires forall i | 0 <= i < |es| :: Accepted(depth + 1, Erase(es[i].tree)) <==> Encodable(depth + 1, es[i].tree)
    ensures Accepted(depth, Compound(m)) <==> Encodable(depth, Struct(es))
  {
    if Encodable(depth, Struct(es)) {
      forall k | k in m ensures depth + 1 < MAX_DEPTH && |k| <= MAX_STRING && Accepted(depth + 1, m[k]) {
        var i :| 0 <= i < |es| && es[i].name == k;
      }
    }
    if Accepted(depth, Compound(m)) {
      forall i | 0 <= i < |es|
        ensures depth + 1 < MAX_DEPTH && |es[i].name| <= MAX_STRING && Encodable(depth + 1, es[i].tree)
      {
        assert es[i].name in m;
      }
    }
  }

  lemma {:induction false} EncIntsSnoc(f: Format, width: Width, xs: seq<int>, i: nat)
    requires i < |xs|
    ensures EncInts(f, width, xs[..i + 1]) == EncInts(f, width, xs[..i]) + EncInt(f, width, xs[i])
  {
    if i == 0 {
      assert xs[..1] == [xs[0]] && [xs[0]][1..] == [];
    } else {
      assert xs[..i + 1][1..] == xs[1..][..i] && xs[..i][1..] == xs[1..][..i - 1];
      EncIntsSnoc(f, width, xs[1..], i - 1);
    }
  }

  /** Writing one more entry after the others. */
  lemma {:induction false} EncEntriesSnoc(f: Format, depth: int, es: seq<Entry>, e: Entry)
    ensures EncEntries(f, depth, es + [e]) == Then(EncEntries(f, depth, es), EncEntry(f, depth, e))
  {
    if es == [] {
      assert es + [e] == [e] && [e][1..] == [];
      if EncEntry(f, depth, e).Wrote? { assert EncEntry(f, depth, e).bytes + [] == EncEntry(f, depth, e).bytes; }
    } else {
      assert (es + [e])[1..] == es[1..] + [e];
      EncEntriesSnoc(f, depth, es[1..], e);
      ThenAssociates(EncEntry(f, depth, es[0]), EncEntries(f, depth, es[1..]), EncEntry(f, depth, e));
    }
  }

  lemma ThenAssociates(a: Encoded, b: Encoded, c: Encoded)
    ensures Then(a, Then(b, c)) == Then(Then(a, b), c)
  {
    if a.Wrote? && b.Wrote? && c.Wrote? {
      assert a.bytes + (b.bytes + c.bytes) == a.bytes + b.bytes + c.bytes;
    }
  }

  lemma {:induction false} EncAllSnoc(f: Format, depth: int, xs: seq<Tree>, x: Tree)
    ensures EncAll(f, depth, xs + [x]) == Then(EncAll(f, depth, xs), EncPayload(f, depth, x))
  {
    if xs == [] {
      assert xs + [x] == [x] && [x][1..] == [];
      if EncPayload(f, depth, x).Wrote? { assert EncPayload(f, depth, x).bytes + [] == EncPayload(f, depth, x).bytes; }
    } else {
      assert (xs + [x])[1..] == xs[1..] + [x];
      EncAllSnoc(f, depth, xs[1..], x);
      ThenAssociates(EncPayload(f, depth, xs[0]), EncAll(f, depth, xs[1..]), EncPayload(f, depth, x));
    }
  }

  lemma TwoPieces(s: Bytes, a: Bytes, b: Bytes)
    ensures s + a + b == s + (a + b)
  {
  }

  lemma ThreePieces(s: Bytes, a: Bytes, b: Bytes, c: Bytes)
    ensures s + a + b + c == s + (a + (b + c))
  {
  }

  /** Trees that order the values of a list. */
  predicate OrdersOf(os: seq<Tree>, xs: seq<Value>)
  {
    |os| == |xs| && forall i | 0 <= i < |os| :: Erase(os[i]) == xs[i] && Distinct(os[i])
  }

  lemma ListWritten(f: Format, depth: int, before: Bytes, xs: seq<Value>, os: seq<Tree>)
    requires OrdersOf(os, xs) && EncAll(f, depth + 1, os).Wrote?
    ensures EraseAll(os) == xs && Distinct(Slice(os)) && EncPayload(f, depth, Slice(os)).Wrote?
    ensures before + ([VElementTag(xs)] + EncInt(f, W32, |xs|)) + EncAll(f, depth + 1, os).bytes ==
            before + EncPayload(f, depth, Slice(os)).bytes
  {
    if os != [] { EraseTags(os[0]); }
    assert EraseAll(os) == xs;
    TwoPieces(before, [VElementTag(xs)] + EncInt(f, W32, |xs|), EncAll(f, depth + 1, os).bytes);
  }

  lemma OneMore(f: Format, depth: int, start: Bytes, os: seq<Tree>, o: Tree, xs: seq<Value>, i: nat)
    requires i < |xs| && OrdersOf(os, xs[..i]) && Erase(o) == xs[i] && Distinct(o)
    requires EncAll(f, depth, os).Wrote? && EncPayload(f, depth, o).Wrote?
    ensures OrdersOf(os + [o], xs[..i + 1]) && EncAll(f, depth, os + [o]).Wrote?
    ensures start + EncAll(f, depth, os).bytes + EncPayload(f, depth, o).bytes ==
            start + EncAll(f, depth, os + [o]).bytes
  {
    EncAllSnoc(f, depth, os, o);
    TwoPieces(start, EncAll(f, depth, os).bytes, EncPayload(f, depth, o).bytes);
  }

  lemma ElementRefused(depth: int, xs: seq<Value>, i: nat)
    requires i < |xs| && !Accepted(depth + 1, xs[i])
    ensures !Accepted(depth, List(xs))
  {
  }

  predicate ElementsAccepted(depth: int, xs: seq<Value>, n: nat)
    requires n <= |xs|
  {
    forall j | 0 <= j < n :: Accepted(depth, xs[j])
  }

  lemma AllElementsAccepted(depth: int, xs: seq<Value>)
    ensures ElementsAccepted(depth + 1, xs, |xs|) <==> Accepted(depth, List(xs))
  {
  }

  /** The fields visited so far were accepted. */
  predicate FieldsAccepted(depth: int, m: map<Bytes, Value>, keys: set<Bytes>)
  {
    forall k | k in m.Keys - keys :: depth < MAX_DEPTH && |k| <= MAX_STRING && Accepted(depth, m[k])
  }

  lemma AllFieldsAccepted(depth: int, m: map<Bytes, Value>)
    requires FieldsAccepted(depth + 1, m, {})
    ensures Accepted(depth, Compound(m))
  {
    assert m.Keys - {} == m.Keys;
  }

  lemma OneMoreAccepted(depth: int, m: map<Bytes, Value>, keys: set<Bytes>, k: Bytes)
    requires FieldsAccepted(depth, m, keys) && k in m
    requires depth < MAX_DEPTH && |k| <= MAX_STRING && Accepted(depth, m[k])
    ensures FieldsAccepted(depth, m, keys - {k})
  {
  }

  /** Entries for the keys of a map visited so far. */
  predicate Visited(m: map<Bytes, Value>, keys: set<Bytes>, es: seq<Entry>)
  {
    && EraseEntries(es).Keys == m.Keys - keys
    && (forall k | k in EraseEntries(es) :: k in m && EraseEntries(es)[k] == m[k])
    && (forall i | 0 <= i < |es| :: es[i].name in EraseEntries(es))
    && Distinct(Struct(es))
  }

  lemma AllVisited(m: map<Bytes, Value>, es: seq<Entry>)
    requires Visited(m, {}, es)
    ensures EraseEntries(es) == m && Distinct(Struct(es))
  {
    assert m.Keys - {} == m.Keys;
  }

  lemma VisitedGrows(m: map<Bytes, Value>, keys: set<Bytes>, es: seq<Entry>, k: Bytes, o: Tree)
    requires Visited(m, keys, es) && k in keys && k in m && Erase(o) == m[k] && Distinct(o)
    ensures Visited(m, keys - {k}, es + [Entry(k, o)])
  {
    var more := es + [Entry(k, o)];
    assert more[..|es|] == es;
    assert EraseEntries(more) == EraseEntries(es)[k := m[k]];
    assert m.Keys - (keys - {k}) == (m.Keys - keys) + {k};
    forall i, j | 0 <= i < j < |more| ensures more[i].name != more[j].name {
      assert more[i] == es[i];
    }
  }

  lemma OneMoreEntry(f: Format, depth: int, start: Bytes, m: map<Bytes, Value>, keys: set<Bytes>,
                     es: seq<Entry>, k: Bytes, o: Tree)
    requires Visited(m, keys, es) && k in keys && k in m && Erase(o) == m[k] && Distinct(o)
    requires EncEntries(f, depth, es).Wrote?
    requires EncEntry(f, depth, Entry(k, o)).Wrote?
    ensures Visited(m, keys - {k}, es + [Entry(k, o)]) && EncEntries(f, depth, es + [Entry(k, o)]).Wrote?
    ensures start + EncEntries(f, depth, es).bytes + EncEntry(f, depth, Entry(k, o)).bytes
            == start + EncEntries(f, depth, es + [Entry(k, o)]).bytes
  {
    VisitedGrows(m, keys, es, k, o);
    EncEntriesSnoc(f, depth, es, Entry(k, o));
    TwoPieces(start, EncEntries(f, depth, es).bytes, EncEntry(f, depth, Entry(k, o)).bytes);
  }

  lemma FieldRefused(depth: int, m: map<Bytes, Value>, k: Bytes)
    requires k in m && (depth + 1 >= MAX_DEPTH || |k| > MAX_STRING || !Accepted(depth + 1, m[k]))
    ensures !Accepted(depth, Compound(m))
  {
  }

  class Encoder {
    const f: Format
    const w: Buffer
    var depth: int

    constructor (f: Format)
      ensures this.f == f && fresh(w) && w.data == [] && depth == 0
    {
      this.f := f;
      w := new Buffer([]);
      depth := 0;
    }

    method WriteInt(width: Width, x: int)
      requires Signed(width.Bits(), x)
      modifies w
      ensures w.data == old(w.data) + EncInt(f, width, x)
    {
      if f.Varies() {
        WriteVarint(width, w, x);
      } else {
        w.Write(EncFixed(f, width.Bits() / 8, x));
      }
    }

    method WriteString(s: Bytes) returns (err: Option<Error>)
      modifies w
      ensures |s| > MAX_STRING ==> err == Some(StringTooLong)
      ensures |s| <= MAX_STRING ==> err == None && w.data == old(w.data) + EncString(f, s).bytes
    {
      if |s| > MAX_STRING {
        return Some(StringTooLong);
      }
      ghost var before := w.data;
      if f.Varies() {
        WriteVaruint(w, |s|);
      } else {
        w.Write(EncFixed(f, 2, |s|));
      }
      w.Write(s);
      assert w.data == before + EncString(f, s).bytes;
      err := None;
    }

    /** The elements of an integer array or list, one write each. */
    method WriteInts(width: Width, xs: seq<int>)
      requires InRange(width, xs)
      modifies w
      ensures w.data == old(w.data) + EncInts(f, width, xs)
    {
      assert xs[..|xs|] == xs;
      for i := 0 to |xs|
        invariant w.data == old(w.data) + EncInts(f, width, xs[..i])
      {
        ghost var done := EncInts(f, width, xs[..i]);
        WriteInt(width, xs[i]);
        EncIntsSnoc(f, width, xs, i);
        TwoPieces(old(w.data), done, EncInt(f, width, xs[i]));
      }
    }

    method WriteSized(n: nat)
      requires n < 0x8000_0000
      modifies w
      ensures w.data == old(w.data) + EncInt(f, W32, n)
    {
      Int32Bounds(n);
      WriteInt(W32, n);
    }

    method WriteScalar(leaf: Leaf)
      requires leaf.Valid() && leaf.Tag() <= TAG_FLOAT64
      modifies w
      ensures EncLeaf(f, leaf).Wrote? && w.data == old(w.data) + EncLeaf(f, leaf).bytes
    {
      match leaf
      case Byte(b) => w.WriteByte(b);
      case Int16(x) => w.Write(EncFixed(f, 2, x));
      case Int32(x) => WriteInt(W32, x);
      case Int64(x) => WriteInt(W64, x);
      case Float32(bits) => w.Write(ToFixed(f.Order(), 4, bits));
      case Float64(bits) => w.Write(ToFixed(f.Order(), 8, bits));
    }

    method WriteArray(leaf: Leaf)
      requires leaf.Valid() && (leaf.ByteArray? || leaf.Int32Array? || leaf.Int64Array?)
      modifies w
      ensures EncLeaf(f, leaf).Wrote? && w.data == old(w.data) + EncLeaf(f, leaf).bytes
    {
      ghost var before := w.data;
      match leaf
      case ByteArray(bytes) =>
        WriteSized(|bytes|);
        w.Write(bytes);
        TwoPieces(before, EncInt(f, W32, |bytes|), bytes);
      case Int32Array(xs) => WriteIntArray(W32, xs);
      case Int64Array(xs) => WriteIntArray(W64, xs);
    }

    method WriteIntArray(width: Width, xs: seq<int>)
      requires InRange(width, xs) && |xs| < 0x8000_0000
      modifies w
      ensures w.data == old(w.data) + (EncInt(f, W32, |xs|) + EncInts(f, width, xs))
    {
      ghost var before := w.data;
      WriteSized(|xs|);
      WriteInts(width, xs);
      TwoPieces(before, EncInt(f, W32, |xs|), EncInts(f, width, xs));
    }

    method WriteTypedList(leaf: Leaf)
      requires leaf.Valid() && leaf.TypedList()
      modifies w
      ensures EncLeaf(f, leaf).Wrote? && w.data == old(w.data) + EncLeaf(f, leaf).bytes
    {
      ghost var before := w.data;
      match leaf
      case ByteList(bytes) =>
        w.WriteByte(TAG_BYTE);
        WriteSized(|bytes|);
        w.Write(bytes);
        ThreePieces(before, [TAG_BYTE], EncInt(f, W32, |bytes|), bytes);
      case Int32List(xs) => WriteIntList(TAG_INT32, W32, xs);
      case Int64List(xs) => WriteIntList(TAG_INT64, W64, xs);
    }

    method WriteIntList(t: byte, width: Width, xs: seq<int>)
      requires InRange(width, xs) && |xs| < 0x8000_0000
      modifies w
      ensures w.data == old(w.data) + ([t] + (EncInt(f, W32, |xs|) + EncInts(f, width, xs)))
    {
      ghost var before := w.data;
      w.WriteByte(t);
      WriteIntArray(width, xs);
      TwoPieces(before, [t], EncInt(f, W32, |xs|) + EncInts(f, width, xs));
    }

    method WriteLeaf(leaf: Leaf) returns (err: Option<Error>)
      requires leaf.Valid()
      modifies w
      ensures err == None <==> EncLeaf(f, leaf).Wrote?
      ensures err == None ==> w.data == old(w.data) + EncLeaf(f, leaf).bytes
    {
      err := None;
      if leaf.String? {
        err := WriteString(leaf.bytes);
      } else if leaf.TypedList() {
        WriteTypedList(leaf);
      } else if leaf.ByteArray? || leaf.Int32Array? || leaf.Int64Array? {
        WriteArray(leaf);
      } else {
        WriteScalar(leaf);
      }
    }

    method WriteTag(t: byte, name: Bytes) returns (err: Option<Error>)
      modifies w
      ensures err == None <==> EncTag(f, depth, t, name).Wrote?
      ensures err == None ==> w.data == old(w.data) + EncTag(f, depth, t, name).bytes
    {
      if depth >= MAX_DEPTH {
        return Some(DepthReached);
      }
      ghost var before := w.data;
      w.WriteByte(t);
      if Nameless(f, t, depth) {
        return None;
      }
      err := WriteString(name);
      if err == None {
        assert w.data == before + EncTag(f, depth, t, name).bytes;
      }
    }

    /**
     * Encoder.encode. It succeeds exactly on the values the encoder accepts, and then has appended the payload of the
     * value in some order of its keys; the depth counter is back where it was.
     */
    method EncodePayload(v: Value) returns (err: Option<Error>, ghost o: Tree)
      requires InGo(v) && depth >= 0
      modifies this`depth, w
      ensures err == None <==> Accepted(old(depth), v)
      ensures err == None ==> Erase(o) == v && Distinct(o) && depth == old(depth)
      ensures err == None ==> EncPayload(f, depth, o).Wrote? && w.data == old(w.data) + EncPayload(f, depth, o).bytes
      decreases v, 0
    {
      match v
      case Atom(leaf) =>
        err := WriteLeaf(leaf);
        o := Node(leaf);
      case List(xs) =>
        ghost var os;
        err, os := EncodeSlice(xs);
        o := Slice(os);
      case Compound(m) =>
        ghost var es;
        err, es := EncodeStruct(m);
        o := Struct(es);
    }

    method EncodeStruct(m: map<Bytes, Value>) returns (err: Option<Error>, ghost es: seq<Entry>)
      requires InGo(Compound(m)) && depth >= 0
      modifies this`depth, w
      ensures err == None <==> Accepted(old(depth), Compound(m))
      ensures err == None ==> EraseEntries(es) == m && Distinct(Struct(es)) && depth == old(depth)
      ensures err == None ==>
        EncPayload(f, depth, Struct(es)).Wrote? && w.data == old(w.data) + EncPayload(f, depth, Struct(es)).bytes
      decreases Compound(m), 0, 1
    {
      hide EncEntries, InGo, Accepted, Distinct, EraseEntries;
      depth := depth + 1;
      err, es := EncodeMap(m);
      if err != None {
        return;
      }
      depth := depth - 1;
      w.WriteByte(TAG_END);
    }

    method EncodeSlice(xs: seq<Value>) returns (err: Option<Error>, ghost os: seq<Tree>)
      requires InGo(List(xs)) && depth >= 0
      modifies this`depth, w
      ensures err == None <==> Accepted(old(depth), List(xs))
      ensures err == None ==> EraseAll(os) == xs && Distinct(Slice(os)) && depth == old(depth)
      ensures err == None ==>
        EncPayload(f, depth, Slice(os)).Wrote? && w.data == old(w.data) + EncPayload(f, depth, Slice(os)).bytes
      decreases xs, 2
    {
      ghost var before := w.data;
      WriteListHead(xs);
      err, os := EncodeElements(xs);
      if err != None {
        return;
      }
      depth := depth - 1;
      ListWritten(f, depth, before, xs, os);
    }

    method EncodeElements(xs: seq<Value>) returns (err: Option<Error>, ghost os: seq<Tree>)
      requires InGo(List(xs)) && depth > 0
      modifies this`depth, w
      ensures err == None <==> Accepted(old(depth) - 1, List(xs))
      ensures err == None ==> OrdersOf(os, xs) && depth == old(depth)
      ensures err == None ==> EncAll(f, depth, os).Wrote? && w.data == old(w.data) + EncAll(f, depth, os).bytes
      decreases xs, 1
    {
      hide EncPayload, Accepted, Erase, Distinct;
      err, os := None, [];
      for i := 0 to |xs|
        invariant err == None && depth == old(depth)
        invariant OrdersOf(os, xs[..i]) && ElementsAccepted(depth, xs, i)
        invariant EncAll(f, depth, os).Wrote? && w.data == old(w.data) + EncAll(f, depth, os).bytes
      {
        ghost var o;
        err, o := EncodePayload(xs[i]);
        if err != None {
          ElementRefused(old(depth) - 1, xs, i);
          return;
        }
        OneMore(f, depth, old(w.data), os, o, xs, i);
        os := os + [o];
      }
      AllElementsAccepted(depth - 1, xs);
      assert xs[..|xs|] == xs;
    }

    method WriteListHead(xs: seq<Value>)
      requires |xs| < 0x8000_0000
      modifies this`depth, w
      ensures depth == old(depth) + 1
      ensures w.data == old(w.data) + ([VElementTag(xs)] + EncInt(f, W32, |xs|))
    {
      depth := depth + 1;
      w.WriteByte(VElementTag(xs));
      WriteSized(|xs|);
    }

    method EncodeField(k: Bytes, v: Value) returns (err: Option<Error>, ghost o: Tree)
      requires InGo(v) && depth > 0
      modifies this`depth, w
      ensures err == None <==> old(depth) < MAX_DEPTH && |k| <= MAX_STRING && Accepted(old(depth), v)
      ensures err == None ==> Erase(o) == v && Distinct(o) && depth == old(depth)
      ensures err == None ==> EncEntry(f, depth, Entry(k, o)).Wrote?
                              && w.data == old(w.data) + EncEntry(f, depth, Entry(k, o)).bytes
      decreases v, 1
    {
      ghost var before := w.data;
      o := Struct([]);
      err := WriteTag(VTag(v), k);
      if err != None {
        return;
      }
      err, o := EncodePayload(v);
      if err == None {
        EraseTags(o);
        TwoPieces(before, EncTag(f, depth, VTag(v), k).bytes, EncPayload(f, depth, o).bytes);
      }
    }

    method EncodeMap(m: map<Bytes, Value>) returns (err: Option<Error>, ghost es: seq<Entry>)
      requires InGo(Compound(m)) && depth > 0
      modifies this`depth, w
      ensures err == None <==> Accepted(old(depth) - 1, Compound(m))
      ensures err == None ==> EraseEntries(es) == m && Distinct(Struct(es)) && depth == old(depth)
      ensures err == None ==> EncEntries(f, depth, es).Wrote? && w.data == old(w.data) + EncEntries(f, depth, es).bytes
      decreases Compound(m), 0, 0
    {
      var keys := m.Keys;
      err, es := None, [];
      while keys != {}
        invariant err == None && depth == old(depth) && keys <= m.Keys
        invariant Visited(m, keys, es)
        invariant FieldsAccepted(depth, m, keys)
        invariant EncEntries(f, depth, es).Wrote? && w.data == old(w.data) + EncEntries(f, depth, es).bytes
        decreases keys
      {
        var k :| k in keys;
        ghost var o;
        err, o := EncodeField(k, m[k]);
        if err != None {
          FieldRefused(old(depth) - 1, m, k);
          return;
        }
        OneMoreAccepted(depth, m, keys, k);
        OneMoreEntry(f, depth, old(w.data), m, keys, es, k, o);
        es, keys := es + [Entry(k, o)], keys - {k};
      }
      AllFieldsAccepted(depth - 1, m);
      AllVisited(m, es);
    }
  }

  /** Encoder.Encode: the root tag with an empty name, then the value. */
  method EncodeValue(f: Format, v: Value) returns (r: Encoded, ghost o: Tree)
    requires InGo(v)
    ensures r.Wrote? <==> Accepted(0, v)
    ensures r.Wrote? ==> Erase(o) == v && Distinct(o) && r == Encode(f, o)
    ensures r.Wrote? ==> r.bytes == NbtLayout.Document(f.enc, o)
  {
    var e := new Encoder(f);
    var err := e.WriteTag(VTag(v), []);
    assert err == None;
    err, o := e.EncodePayload(v);
    if err != None {
      return Refused(err.value), o;
    }
    EraseTags(o);
    assert [] + EncTag(f, 0, VTag(v), []).bytes == EncTag(f, 0, VTag(v), []).bytes;
    r := Wrote(e.w.data);
    NbtLayout.DocumentWritten(f, o);
  }
}
