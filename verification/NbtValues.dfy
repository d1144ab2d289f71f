/**
 * The round trip in terms of Go values: what decoding an encoding gives for a value and any order of its keys, and why
 * decoding, encoding and decoding again changes nothing.
 */
module NbtValues {
  import opened Wire
  import opened Varints
  import opened NbtFormat
  import opened NbtTree
  import opened NbtDecode
  import opened NbtRoundTrip

  function VTag(v: Value): byte
  {
    match v
    case Atom(leaf) => leaf.Tag()
    case List(_) => TAG_SLICE
    case Compound(_) => TAG_STRUCT
  }

  function VElementTag(xs: seq<Value>): byte
  {
    if xs == [] then TAG_END else VTag(xs[0])
  }

  function VBytesOf(xs: seq<Value>): Bytes
  {
    seq(|xs|, i requires 0 <= i < |xs| => if xs[i].Atom? && xs[i].leaf.Byte? then xs[i].leaf.b else 0)
  }

  function VIntsOf(xs: seq<Value>): seq<int>
  {
    seq(|xs|, i requires 0 <= i < |xs| =>
      if xs[i].Atom? && xs[i].leaf.Int32? then xs[i].leaf.x
      else if xs[i].Atom? && xs[i].leaf.Int64? then xs[i].leaf.x else 0)
  }

  /**
   * The form in which a Go value comes back: []any holding bytes, ints or longs returns as []byte, []int32 or []int64,
   * and an empty []byte as an empty []any.
   */
  function NormalForm(v: Value): Value
  {
    match v
    case Atom(leaf) => if leaf == ByteList([]) then List([]) else v
    case List(xs) =>
      var t := VElementTag(xs);
      if t == TAG_BYTE then Atom(ByteList(VBytesOf(xs)))
      else if t == TAG_INT32 then Atom(Int32List(VIntsOf(xs)))
      else if t == TAG_INT64 then Atom(Int64List(VIntsOf(xs)))
      else List(seq(|xs|, i requires 0 <= i < |xs| => NormalForm(xs[i])))
    case Compound(m) => Compound(map k | k in m :: NormalForm(m[k]))
  }

  // ------------------------------------------------ trees and the values they order

  lemma {:induction false} EraseTags(o: Tree)
    ensures VTag(Erase(o)) == o.Tag() && VTag(ValueOf(o)) == o.Tag()
  {
  }

  /** In a struct without repeated names, the map built from the entries holds exactly them. */
  lemma {:induction false} EraseEntriesHolds(es: seq<Entry>)
    requires forall i, j | 0 <= i < j < |es| :: es[i].name != es[j].name
    ensures forall i | 0 <= i < |es| :: es[i].name in EraseEntries(es) && EraseEntries(es)[es[i].name] == Erase(es[i].tree)
    ensures forall k | k in EraseEntries(es) :: exists i | 0 <= i < |es| :: es[i].name == k
    ensures |EraseEntries(es)| == |es|
  {
    hide Erase;
    if es != [] {
      var n := |es| - 1;
      var front, m := es[..n], EraseEntries(es[..n]);
      EraseEntriesHolds(front);
      forall i | 0 <= i < |es|
        ensures es[i].name in EraseEntries(es) && EraseEntries(es)[es[i].name] == Erase(es[i].tree)
      {
        if i < n { assert front[i] == es[i]; }
      }
      forall k | k in m ensures exists i | 0 <= i < n :: es[i].name == k {
        var i :| 0 <= i < |front| && front[i].name == k;
        assert es[i].name == k;
      }
      NewName(es, n, m);
    }
  }

  lemma NewName(es: seq<Entry>, n: nat, m: map<Bytes, Value>)
    requires n < |es| && forall i | 0 <= i < n :: es[i].name != es[n].name
    requires forall k | k in m :: exists i | 0 <= i < n :: es[i].name == k
    ensures es[n].name !in m
  {
  }

  /** Every field of a struct that was read comes from one of its entries, repeated names or not. */
  lemma {:induction false} FieldsFromEntries(es: seq<Entry>)
    ensures forall k | k in FieldsOf(es) ::
      exists i | 0 <= i < |es| :: es[i].name == k && FieldsOf(es)[k] == ValueOf(es[i].tree)
  {
    if es != [] {
      var front := es[..|es| - 1];
      FieldsFromEntries(front);
      forall k | k in FieldsOf(es)
        ensures exists i | 0 <= i < |es| :: es[i].name == k && FieldsOf(es)[k] == ValueOf(es[i].tree)
      {
        if k == es[|es| - 1].name {
        } else {
          assert k in FieldsOf(front);
          var i :| 0 <= i < |front| && front[i].name == k && FieldsOf(front)[k] == ValueOf(front[i].tree);
          assert es[i] == front[i];
        }
      }
    }
  }

  // ------------------------------------------ what comes back is the normal form

  lemma TypedNormalForm(xs: seq<Tree>)
    requires Sound(Slice(xs)) && TypedElement(ElementTag(xs))
    ensures ValueOf(Node(TypedLeaf(xs))) == NormalForm(Erase(Slice(xs)))
  {
    EraseTags(xs[0]);
    var vs := EraseAll(xs);
    assert BytesOf(xs) == VBytesOf(vs);
    assert IntsOf(xs) == VIntsOf(vs);
    assert TypedLeaf(xs) != ByteList([]);
  }

  lemma {:induction false} ReadBackIsNormalForm(o: Tree)
    requires Sound(o)
    ensures ValueOf(Raw(o)) == NormalForm(Erase(o))
  {
    match o
    case Node(_) =>
    case Slice(xs) =>
      if xs != [] { EraseTags(xs[0]); }
      if TypedElement(ElementTag(xs)) {
        TypedNormalForm(xs);
      } else {
        forall i | 0 <= i < |xs| ensures ValueOf(Raw(xs[i])) == NormalForm(Erase(xs[i])) {
          ReadBackIsNormalForm(xs[i]);
        }
        assert ValuesOf(RawAll(xs)) == NormalForm(Erase(o)).xs;
      }
    case Struct(es) =>
      forall i | 0 <= i < |es| ensures ValueOf(Raw(es[i].tree)) == NormalForm(Erase(es[i].tree)) {
        ReadBackIsNormalForm(es[i].tree);
      }
      FieldsAreNormal(es);
  }

  lemma {:induction false} FieldsAreNormal(es: seq<Entry>)
    requires forall i | 0 <= i < |es| :: ValueOf(Raw(es[i].tree)) == NormalForm(Erase(es[i].tree))
    ensures FieldsOf(RawEntries(es)) == NormalForm(Compound(EraseEntries(es))).fields
  {
    if es != [] {
      var front, last := es[..|es| - 1], es[|es| - 1];
      assert forall i | 0 <= i < |front| :: front[i] == es[i];
      FieldsAreNormal(front);
      assert RawEntries(es)[..|es| - 1] == RawEntries(front);
      NormalFormUpdate(EraseEntries(front), last.name, Erase(last.tree));
    }
  }

  lemma NormalFormUpdate(m: map<Bytes, Value>, k: Bytes, v: Value)
    ensures NormalForm(Compound(m[k := v])).fields == NormalForm(Compound(m)).fields[k := NormalForm(v)]
  {
  }

  /**
   * NBT round trip. For a Go value, any order of the keys of its maps, any encoding, either host and any bytes after it:
   * what the encoder wrote decodes to the normal form of the value and leaves those bytes, if the depth counter and the
   * offset stay within the decoder's limits on the way; otherwise it fails with the limit's error.
   */
  lemma RoundTrip(f: Format, v: Value, o: Tree, t: Bytes)
    requires Erase(o) == v && Sound(o) && Encode(f, o).Wrote?
    ensures var r := Decode(f, Encode(f, o).bytes + t);
      && (WalkRoot(f, o).At? ==> r.Got? && ValueOf(r.v) == NormalForm(v) && r.d.s == t)
      && (WalkRoot(f, o).Stopped? ==> r == Lost(WalkRoot(f, o).error))
  {
    DecodeOfEncode(f, o, t);
    ReadBackIsNormalForm(o);
  }

  // -------------------------------------------------- decode, encode, decode

  /** Where a fixed-width string length is read as the host would: no string above 32767 bytes comes in. */
  predicate StringsBounded(f: Format) { f.Varies() || f.Order() == f.host }

  /**
   * A tree as the decoder reads it at a depth: sound, not too deep to be encoded, and without untyped lists of a typed
   * kind; where the strings are bounded, with strings and names short enough to be encoded.
   */
  predicate WellRead(bounded: bool, depth: int, o: Tree)
    decreases o
  {
    match o
    case Node(leaf) => leaf.Valid() && (bounded && leaf.String? ==> |leaf.bytes| <= MAX_STRING)
    case Slice(xs) =>
      && |xs| < 0x8000_0000 && !TypedElement(ElementTag(xs))
      && forall i | 0 <= i < |xs| :: WellRead(bounded, depth + 1, xs[i]) && xs[i].Tag() == xs[0].Tag()
    case Struct(es) => forall i | 0 <= i < |es| :: EntryWellRead(bounded, depth + 1, es[i])
  }

  predicate EntryWellRead(bounded: bool, depth: int, e: Entry)
    decreases e
  {
    depth < MAX_DEPTH && (bounded ==> |e.name| <= MAX_STRING) && WellRead(bounded, depth, e.tree)
  }

  lemma {:induction false} WellReadHigher(bounded: bool, depth: int, lower: int, o: Tree)
    requires lower <= depth && WellRead(bounded, depth, o)
    ensures WellRead(bounded, lower, o)
    decreases o
  {
    match o
    case Node(_) =>
    case Slice(xs) =>
      forall i | 0 <= i < |xs| ensures WellRead(bounded, lower + 1, xs[i]) { WellReadHigher(bounded, depth + 1, lower + 1, xs[i]); }
    case Struct(es) =>
      forall i | 0 <= i < |es| ensures EntryWellRead(bounded, lower + 1, es[i]) {
        assert EntryWellRead(bounded, depth + 1, es[i]);
        WellReadHigher(bounded, depth + 1, lower + 1, es[i].tree);
      }
  }

  lemma DecStringBounded(f: Format, s: Bytes)
    requires StringsBounded(f) && DecString(f, s).Ok?
    ensures |DecString(f, s).value| <= MAX_STRING
  {
    SmallWords();
    if !f.Varies() {
      DecWordFacts(f, 2, s, []);
      assert FromWord(16, DecStringLength(f, s).value) >= 0;
    }
  }

  lemma {:induction false} PayloadWellRead(f: Format, t: byte, d: Dec)
    requires DecPayload(f, t, d).Got?
    ensures WellRead(StringsBounded(f), d.depth, DecPayload(f, t, d).v) && DecPayload(f, t, d).v.Tag() == t
    decreases |d.s|, 1
  {
    if t == TAG_SLICE {
      ListWellRead(f, d);
    } else if t == TAG_STRUCT {
      EntriesWellRead(f, d.Deeper(1));
    } else {
      DecLeafFacts(f, t, d.s, []);
      if t == TAG_STRING && StringsBounded(f) { DecStringBounded(f, d.s); }
    }
  }

  lemma {:induction false} ListWellRead(f: Format, d: Dec)
    requires DecList(f, d).Got?
    ensures WellRead(StringsBounded(f), d.depth, DecList(f, d).v) && DecList(f, d).v.Tag() == TAG_SLICE
    decreases |d.s|, 0
  {
    if TypedElement(d.s[0]) {
      DecTypedListFacts(f, d.s[0], d.s[1..], []);
    } else {
      DecInt32Range(f, d.s[1..]);
      var n := DecInt(f, W32, d.s[1..]);
      ManyWellRead(f, d.s[0], n.value, d.At(n.rest).Deeper(1));
    }
  }

  lemma {:induction false} ManyWellRead(f: Format, t: byte, n: nat, d: Dec)
    requires DecMany(f, t, n, d).Got?
    ensures var xs := DecMany(f, t, n, d).v;
      |xs| == n && forall i | 0 <= i < |xs| :: WellRead(StringsBounded(f), d.depth, xs[i]) && xs[i].Tag() == t
    decreases |d.s|, 2, n
  {
    if n > 0 {
      var p := DecPayload(f, t, d);
      PayloadWellRead(f, t, d);
      DepthGrows(f, t, d);
      ManyWellRead(f, t, n - 1, p.d);
      var xs := DecMany(f, t, n - 1, p.d).v;
      forall i | 0 <= i < |xs| ensures WellRead(StringsBounded(f), d.depth, xs[i]) { WellReadHigher(StringsBounded(f), p.d.depth, d.depth, xs[i]); }
    }
  }

  lemma {:induction false} EntriesWellRead(f: Format, d: Dec)
    requires DecEntries(f, d).Got?
    ensures var es := DecEntries(f, d).v; forall i | 0 <= i < |es| :: EntryWellRead(StringsBounded(f), d.depth, es[i])
    decreases |d.s|, 0
  {
    var tag := DecTag(f, d);
    DecTagFacts(f, d, []);
    if tag.v.0 != TAG_END {
      var p := DecPayload(f, tag.v.0, tag.d);
      if StringsBounded(f) { NameBounded(f, d); }
      PayloadWellRead(f, tag.v.0, tag.d);
      DepthGrows(f, tag.v.0, tag.d);
      EntriesWellRead(f, p.d);
      var es := DecEntries(f, p.d).v;
      forall i | 0 <= i < |es| ensures EntryWellRead(StringsBounded(f), d.depth, es[i]) {
        assert EntryWellRead(StringsBounded(f), p.d.depth, es[i]);
        WellReadHigher(StringsBounded(f), p.d.depth, d.depth, es[i].tree);
      }
    }
  }

  lemma NameBounded(f: Format, d: Dec)
    requires StringsBounded(f) && DecTag(f, d).Got?
    ensures |DecTag(f, d).v.1| <= MAX_STRING
  {
    if !(Nameless(f, d.s[0], d.depth) || d.s[0] == TAG_END) {
      DecStringBounded(f, d.s[1..]);
    }
  }

  /** WellRead, said of a Go value. */
  predicate Good(depth: int, v: Value)
    decreases v
  {
    match v
    case Atom(leaf) => leaf.Valid() && leaf != ByteList([])
    case List(xs) =>
      && |xs| < 0x8000_0000 && !TypedElement(VElementTag(xs))
      && forall i | 0 <= i < |xs| :: Good(depth + 1, xs[i]) && VTag(xs[i]) == VTag(xs[0])
    case Compound(m) => forall k | k in m :: depth + 1 < MAX_DEPTH && Good(depth + 1, m[k])
  }

  /** Every string and every name is short enough for the encoder. */
  predicate ShortStrings(v: Value)
    decreases v
  {
    match v
    case Atom(leaf) => leaf.String? ==> |leaf.bytes| <= MAX_STRING
    case List(xs) => forall i | 0 <= i < |xs| :: ShortStrings(xs[i])
    case Compound(m) => forall k | k in m :: |k| <= MAX_STRING && ShortStrings(m[k])
  }

  lemma {:induction false} ReadValueIsGood(bounded: bool, depth: int, o: Tree)
    requires WellRead(bounded, depth, o)
    ensures Good(depth, ValueOf(o)) && (bounded ==> ShortStrings(ValueOf(o)))
    decreases o
  {
    match o
    case Node(_) =>
    case Slice(xs) =>
      forall i | 0 <= i < |xs|
        ensures Good(depth + 1, ValueOf(xs[i])) && VTag(ValueOf(xs[i])) == xs[i].Tag()
        ensures bounded ==> ShortStrings(ValueOf(xs[i]))
      {
        ReadValueIsGood(bounded, depth + 1, xs[i]);
        EraseTags(xs[i]);
      }
    case Struct(es) =>
      FieldsFromEntries(es);
      var m := FieldsOf(es);
      forall k | k in m
        ensures depth + 1 < MAX_DEPTH && Good(depth + 1, m[k])
        ensures bounded ==> |k| <= MAX_STRING && ShortStrings(m[k])
      {
        var i :| 0 <= i < |es| && es[i].name == k && m[k] == ValueOf(es[i].tree);
        assert EntryWellRead(bounded, depth + 1, es[i]);
        ReadValueIsGood(bounded, depth + 1, es[i].tree);
      }
  }

  lemma {:induction false} GoodIsNormal(depth: int, v: Value)
    requires Good(depth, v)
    ensures NormalForm(v) == v
    decreases v
  {
    match v
    case Atom(_) =>
    case List(xs) =>
      forall i | 0 <= i < |xs| ensures NormalForm(xs[i]) == xs[i] { GoodIsNormal(depth + 1, xs[i]); }
      assert NormalForm(v).xs == xs;
    case Compound(m) =>
      forall k | k in m ensures NormalForm(m[k]) == m[k] { GoodIsNormal(depth + 1, m[k]); }
      assert NormalForm(v).fields == m;
  }

  /** Every order of a good value is sound, and the encoder accepts it exactly if its strings and names are short. */
  lemma {:induction false} OrdersOfGood(depth: int, o: Tree)
    requires Distinct(o) && Good(depth, Erase(o))
    ensures Sound(o) && (Encodable(depth, o) <==> ShortStrings(Erase(o)))
    decreases o
  {
    match o
    case Node(_) =>
    case Slice(xs) =>
      forall i | 0 <= i < |xs|
        ensures Sound(xs[i]) && xs[i].Tag() == xs[0].Tag()
        ensures Encodable(depth + 1, xs[i]) <==> ShortStrings(EraseAll(xs)[i])
      {
        assert Good(depth + 1, EraseAll(xs)[i]);
        OrdersOfGood(depth + 1, xs[i]);
        EraseTags(xs[i]);
        EraseTags(xs[0]);
      }
    case Struct(es) =>
      EraseEntriesHolds(es);
      var m := EraseEntries(es);
      forall i | 0 <= i < |es|
        ensures Sound(es[i].tree) && depth + 1 < MAX_DEPTH
        ensures Encodable(depth + 1, es[i].tree) <==> ShortStrings(m[es[i].name])
      {
        assert es[i].name in m;
        OrdersOfGood(depth + 1, es[i].tree);
      }
      StructOfGood(depth, es, m);
  }

  lemma StructOfGood(depth: int, es: seq<Entry>, m: map<Bytes, Value>)
    requires es != [] ==> depth + 1 < MAX_DEPTH
    requires forall i | 0 <= i < |es| :: es[i].name in m && (Encodable(depth + 1, es[i].tree) <==> ShortStrings(m[es[i].name]))
    requires forall k | k in m :: exists i | 0 <= i < |es| :: es[i].name == k
    ensures Encodable(depth, Struct(es)) <==> ShortStrings(Compound(m))
  {
    if Encodable(depth, Struct(es)) {
      forall k | k in m ensures |k| <= MAX_STRING && ShortStrings(m[k]) {
        var i :| 0 <= i < |es| && es[i].name == k;
      }
    }
    if ShortStrings(Compound(m)) {
      forall i | 0 <= i < |es| ensures |es[i].name| <= MAX_STRING && Encodable(depth + 1, es[i].tree) {
        assert es[i].name in m;
      }
    }
  }

  /** What was decoded, as a Go value. */
  lemma DecodedIsGood(f: Format, s: Bytes)
    requires Decode(f, s).Got?
    ensures var v := ValueOf(Decode(f, s).v); Good(0, v) && NormalForm(v) == v && (StringsBounded(f) ==> ShortStrings(v))
  {
    var d := Dec(s, |s|, 0);
    DecTagFacts(f, d, []);
    PayloadWellRead(f, DecTag(f, d).v.0, DecTag(f, d).d);
    ReadValueIsGood(StringsBounded(f), 0, Decode(f, s).v);
    GoodIsNormal(0, ValueOf(Decode(f, s).v));
  }

  /**
   * Decode, encode, decode. Whatever input was decoded, in any encoding on any host, and whatever order Go then visits the
   * keys in: the encoder accepts the value exactly if none of its strings and names is above 32767 bytes, which cannot be
   * where a length is read as a signed number; and decoding its output gives the same value back if the walk of that order
   * goes through.
   */
  lemma DecodeEncodeDecode(f: Format, s: Bytes, o: Tree, t: Bytes)
    requires Decode(f, s).Got?
    requires Distinct(o) && Erase(o) == ValueOf(Decode(f, s).v)
    ensures Encode(f, o).Wrote? <==> ShortStrings(ValueOf(Decode(f, s).v))
    ensures StringsBounded(f) ==> Encode(f, o).Wrote?
    ensures Encode(f, o).Wrote? ==>
      var r := Decode(f, Encode(f, o).bytes + t);
      && (WalkRoot(f, o).At? ==> r.Got? && ValueOf(r.v) == ValueOf(Decode(f, s).v) && r.d.s == t)
      && (WalkRoot(f, o).Stopped? ==> r == Lost(WalkRoot(f, o).error))
  {
    hide Decode, NormalForm, ShortStrings, Good, WalkRoot, ValueOf;
    var v := ValueOf(Decode(f, s).v);
    DecodedIsGood(f, s);
    OrdersOfGood(0, o);
    EncodableIffWritten(f, 0, o);
    if Encode(f, o).Wrote? {
      RoundTrip(f, v, o, t);
    }
  }
}
