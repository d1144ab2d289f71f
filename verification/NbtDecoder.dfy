/** The decoder as it runs: methods that advance the reader, move the depth counter and fill maps and slices in loops. */
module NbtDecoder {
  import opened Wire
  import opened Varints
  import opened Endian
  import opened NbtFormat
  import opened NbtTree
  import opened NbtDecode

  class Decoder {
    const f: Format
    const r: Buffer
    var depth: int

    constructor (f: Format, data: Bytes)
      ensures this.f == f && fresh(r) && State() == Dec(data, |data|, 0)
    {
      this.f := f;
      r := new Buffer(data);
      depth := 0;
    }

    ghost function State(): Dec
      reads this, r
    {
      Dec(r.data, r.End(), depth)
    }

    // -------------------------------------------------------- basic types

    method ReadWord(width: nat) returns (u: Read<nat>)
      modifies r
      ensures Reads(DecWord(f, width, old(r.data)), u, r.data) && r.End() == old(r.End())
    {
      var b := r.ReadFull(width);
      if b.Failed? {
        return Failed(b.error);
      }
      u := Done(FromFixed(f.Order(), b.value));
    }

    method ReadInt(w: Width) returns (x: Read<int>)
      modifies r
      ensures Reads(DecInt(f, w, old(r.data)), x, r.data) && r.End() == old(r.End())
    {
      if f.Varies() {
        x := ReadVarintLoop(w, r);
      } else {
        var u := ReadWord(w.Bits() / 8);
        x := if u.Done? then Done(FromWord(w.Bits(), u.value)) else Failed(u.error);
      }
    }

    method ReadString() returns (x: Read<Bytes>)
      modifies r
      ensures Reads(DecString(f, old(r.data)), x, r.data) && r.End() == old(r.End())
    {
      var n: nat;
      if f.Varies() {
        var u := ReadVaruintLoop(W32, r);
        if u.Failed? {
          return Failed(u.error);
        }
        if u.value > MAX_STRING {
          return Failed(StringTooLong);
        }
        n := u.value;
      } else {
        var u := ReadWord(2);
        if u.Failed? || (FromWord(16, u.value) < 0 && f.Order() == f.host) {
          return Failed(Overrun);
        }
        n := u.value;
      }
      x := r.ReadFull(n);
    }

    /** A length and that many bytes. */
    method ReadSized() returns (x: Read<Bytes>)
      modifies r
      ensures Reads(DecSized(f, old(r.data)), x, r.data) && r.End() == old(r.End())
    {
      var n := ReadInt(W32);
      if n.Failed? {
        return Failed(n.error);
      }
      if n.value < 0 {
        return Failed(Overrun);
      }
      x := r.ReadFull(n.value);
    }

    /** Int32Slice and Int64Slice of the network encoding: one element after the other. */
    method ReadEach(w: Width, n: nat) returns (xs: Read<seq<int>>)
      modifies r
      ensures Reads(DecEach(f, w, n, old(r.data)), xs, r.data) && r.End() == old(r.End())
    {
      var m: seq<int> := [];
      FollowingNothing(DecEach(f, w, n, r.data));
      for i := 0 to n
        invariant r.End() == old(r.End())
        invariant DecEach(f, w, n, old(r.data)) == Following(m, DecEach(f, w, n - i, r.data))
      {
        ghost var s := r.data;
        var x := ReadInt(w);
        if x.Failed? {
          return Failed(Overrun);
        }
        EachOpens(f, w, n - i, s);
        FollowingOne(m, x.value, DecEach(f, w, n - i - 1, r.data));
        m := m + [x.value];
      }
      FollowingEnd(m, r.data);
      xs := Done(m);
    }

    /** Int32Slice and Int64Slice of the fixed encodings: all bytes at once, rotated in place if need be. */
    method ReadBlock(w: Width, n: nat) returns (xs: Read<seq<int>>)
      modifies r
      ensures Reads(DecBlock(f, w, n, old(r.data)), xs, r.data) && r.End() == old(r.End())
    {
      var width := w.Bits() / 8;
      var b := r.ReadFull(n * width);
      if b.Failed? {
        return Failed(b.error);
      }
      var a := new byte[n * width](i requires 0 <= i < n * width => b.value[i]);
      assert a[..] == b.value;
      var words := Reinterpret(f.Order(), f.host, width, a, n);
      xs := Done(SignedWords(w.Bits(), words));
    }

    method ReadInts(w: Width) returns (xs: Read<seq<int>>)
      modifies r
      ensures Reads(DecInts(f, w, old(r.data)), xs, r.data) && r.End() == old(r.End())
    {
      var n := ReadInt(W32);
      if n.Failed? || n.value < 0 {
        return Failed(Overrun);
      }
      if f.Varies() {
        xs := ReadEach(w, n.value);
      } else {
        xs := ReadBlock(w, n.value);
      }
    }

    /** The payload of a tag without nested tags. */
    method ReadLeaf(t: byte) returns (x: Read<Leaf>)
      requires t != TAG_SLICE && t != TAG_STRUCT
      modifies r
      ensures Reads(DecLeaf(f, t, old(r.data)), x, r.data) && r.End() == old(r.End())
    {
      if t == TAG_BYTE {
        var b := r.ReadByte();
        x := if b.Some? then Done(Byte(b.value)) else Failed(Overrun);
      } else if t == TAG_INT16 {
        var u := ReadWord(2);
        x := if u.Done? then Done(Int16(FromWord(16, u.value))) else Failed(u.error);
      } else if t == TAG_INT32 || t == TAG_INT64 {
        var i := ReadInt(if t == TAG_INT32 then W32 else W64);
        x := if i.Failed? then Failed(i.error)
             else Done(if t == TAG_INT32 then Int32(i.value) else Int64(i.value));
      } else if t == TAG_FLOAT32 || t == TAG_FLOAT64 {
        var u := ReadWord(if t == TAG_FLOAT32 then 4 else 8);
        x := if u.Failed? then Failed(u.error)
             else Done(if t == TAG_FLOAT32 then Float32(u.value) else Float64(u.value));
      } else {
        x := ReadLongLeaf(t);
      }
    }

    method ReadLongLeaf(t: byte) returns (x: Read<Leaf>)
      requires t > TAG_FLOAT64 || t == TAG_END
      requires t != TAG_SLICE && t != TAG_STRUCT
      modifies r
      ensures Reads(DecLeaf(f, t, old(r.data)), x, r.data) && r.End() == old(r.End())
    {
      if t == TAG_BYTE_ARRAY {
        var s := ReadSized();
        x := if s.Done? then Done(ByteArray(s.value)) else Failed(s.error);
      } else if t == TAG_STRING {
        var s := ReadString();
        x := if s.Done? then Done(String(s.value)) else Failed(s.error);
      } else if t == TAG_INT32_ARRAY || t == TAG_INT64_ARRAY {
        var s := ReadInts(if t == TAG_INT32_ARRAY then W32 else W64);
        x := if s.Failed? then Failed(s.error)
             else Done(if t == TAG_INT32_ARRAY then Int32Array(s.value) else Int64Array(s.value));
      } else {
        x := Failed(if t == TAG_END then UnexpectedEnd else UnknownTag);
      }
    }

    method ReadTypedList(t: byte) returns (x: Read<Leaf>)
      requires TypedElement(t)
      modifies r
      ensures Reads(DecTypedList(f, t, old(r.data)), x, r.data) && r.End() == old(r.End())
    {
      if t == TAG_BYTE {
        var s := ReadSized();
        x := if s.Done? then Done(ByteList(s.value)) else Failed(Overrun);
      } else {
        var s := ReadInts(if t == TAG_INT32 then W32 else W64);
        x := if s.Failed? then Failed(Overrun)
             else Done(if t == TAG_INT32 then Int32List(s.value) else Int64List(s.value));
      }
    }

    // --------------------------------------------------------------- tags

    method ReadTag() returns (tag: Read<(byte, Bytes)>)
      modifies r
      ensures match DecTag(f, old(State()))
              case Got(v, d) => tag == Done(v) && State() == d
              case Lost(e) => tag == Failed(e)
      ensures r.End() == old(r.End())
      ensures tag.Done? ==> |r.data| < old(|r.data|)
    {
      if depth >= MAX_DEPTH {
        return Failed(DepthReached);
      }
      if r.off >= MAX_NETWORK_OFFSET && f.Varies() {
        return Failed(BytesReached);
      }
      var t := r.ReadByte();
      if t == None {
        return Failed(Overrun);
      }
      if Nameless(f, t.value, depth) || t.value == TAG_END {
        return Done((t.value, []));
      }
      ghost var s := r.data;
      var name := ReadString();
      if name.Failed? {
        return Failed(name.error);
      }
      DecStringPrefix(f, s, []);
      tag := Done((t.value, name.value));
    }

    // ------------------------------------------------------- nested values

    /** The outcome of a read is the value of the tree the specification reads, and the decoder is where it says. */
    ghost predicate Agrees(spec: Res<Tree>, v: Read<Value>)
      reads this, r
    {
      match spec
      case Got(o, d) => v == Done(ValueOf(o)) && State() == d
      case Lost(e) => v == Failed(e)
    }

    method UnmarshalTag(t: byte) returns (v: Read<Value>)
      modifies this`depth, r
      ensures Agrees(DecPayload(f, t, old(State())), v)
      decreases |r.data|, 1
    {
      if t == TAG_SLICE {
        v := UnmarshalList();
      } else if t == TAG_STRUCT {
        depth := depth + 1;
        assert State() == old(State()).Deeper(1);
        var m := UnmarshalCompound();
        if m.Failed? {
          return Failed(m.error);
        }
        depth := depth - 1;
        v := Done(Compound(m.value));
      } else {
        ghost var s := r.data;
        var leaf := ReadLeaf(t);
        if leaf.Failed? {
          return Failed(leaf.error);
        }
        DecLeafFacts(f, t, s, []);
        v := Done(Atom(leaf.value));
      }
    }

    method UnmarshalList() returns (v: Read<Value>)
      modifies this`depth, r
      ensures Agrees(DecList(f, old(State())), v)
      decreases |r.data|, 0
    {
      depth := depth + 1;
      var t := r.ReadByte();
      if t == None {
        return Failed(Overrun);
      }
      if !Known(t.value) {
        return Failed(UnknownTag);
      }
      ghost var s := r.data;
      if TypedElement(t.value) {
        var leaf := ReadTypedList(t.value);
        if leaf.Failed? {
          return Failed(leaf.error);
        }
        v := Done(if leaf.value == ByteList([]) then List([]) else Atom(leaf.value));
      } else {
        var n := ReadInt(W32);
        if n.Failed? {
          return Failed(n.error);
        }
        if n.value < 0 {
          return Failed(Overrun);
        }
        DecIntRange(f, W32, s);
        ghost var d := State();
        var xs, _ := UnmarshalElements(t.value, n.value);
        assert old(State()).At(d.s).Deeper(1) == d;
        if xs.Failed? {
          return Failed(xs.error);
        }
        depth := depth - 1;
        v := Done(List(xs.value));
      }
    }

    method UnmarshalElements(t: byte, n: nat) returns (v: Read<seq<Value>>, ghost read: seq<Tree>)
      modifies this`depth, r
      ensures match DecMany(f, t, n, old(State()))
              case Got(xs, d) => v == Done(ValuesOf(xs)) && State() == d
              case Lost(e) => v == Failed(e)
      decreases |r.data|, 2
    {
      var vs: seq<Value> := [];
      read := [];
      ghost var start := State();
      AfterEmpty(DecMany(f, t, n, start));
      for i := 0 to n
        invariant |r.data| <= old(|r.data|)
        invariant DecMany(f, t, n, start) == After(read, DecMany(f, t, n - i, State()))
        invariant vs == ValuesOf(read)
      {
        ghost var d := State();
        var x := UnmarshalTag(t);
        if x.Failed? {
          return Failed(x.error), read;
        }
        ghost var o := DecPayload(f, t, d).v;
        AfterOne(read, o, DecMany(f, t, n - i - 1, State()));
        ValuesOfSnoc(read, o);
        read, vs := read + [o], vs + [x.value];
      }
      AfterNothing(read, State());
      v := Done(vs);
    }

    method UnmarshalCompound() returns (v: Read<map<Bytes, Value>>)
      modifies this`depth, r
      ensures match DecEntries(f, old(State()))
              case Got(es, d) => v == Done(FieldsOf(es)) && State() == d
              case Lost(e) => v == Failed(e)
      decreases |r.data|, 0
    {
      var m: map<Bytes, Value> := map[];
      ghost var es: seq<Entry>, start := [], State();
      AfterEmpty(DecEntries(f, start));
      while true
        invariant |r.data| <= old(|r.data|)
        invariant DecEntries(f, start) == After(es, DecEntries(f, State()))
        invariant m == FieldsOf(es)
        decreases |r.data|
      {
        var tag := ReadTag();
        if tag.Failed? {
          return Failed(tag.error);
        }
        var (t, name) := tag.value;
        if !Known(t) {
          return Failed(UnknownTag);
        }
        if t == TAG_END {
          AfterNothing(es, State());
          return Done(m);
        }
        ghost var d := State();
        var x := UnmarshalTag(t);
        if x.Failed? {
          return Failed(x.error);
        }
        ghost var e := Entry(name, DecPayload(f, t, d).v);
        AfterOne(es, e, DecEntries(f, State()));
        assert (es + [e])[..|es|] == es;
        es, m := es + [e], m[name := x.value];
      }
    }
  }

  lemma EachOpens(f: Format, w: Width, n: nat, s: Bytes)
    requires n > 0 && DecInt(f, w, s).Ok?
    ensures DecEach(f, w, n, s) == Following([DecInt(f, w, s).value], DecEach(f, w, n - 1, DecInt(f, w, s).rest))
  {
  }

  /** A read that continues after what was read before. */
  function After<T>(read: seq<T>, rest: Res<seq<T>>): Res<seq<T>>
  {
    match rest
    case Got(xs, d) => Got(read + xs, d)
    case Lost(e) => Lost(e)
  }

  lemma AfterEmpty<T>(rest: Res<seq<T>>)
    ensures After([], rest) == rest
  {
    if rest.Got? { assert [] + rest.v == rest.v; }
  }

  lemma AfterNothing<T>(read: seq<T>, d: Dec)
    ensures After(read, Got([], d)) == Got(read, d)
  {
    assert read + [] == read;
  }

  lemma AfterOne<T>(read: seq<T>, x: T, rest: Res<seq<T>>)
    ensures After(read + [x], rest) == After(read, After([x], rest))
  {
    if rest.Got? { assert read + [x] + rest.v == read + ([x] + rest.v); }
  }

  lemma {:induction false} ValuesOfSnoc(xs: seq<Tree>, x: Tree)
    ensures ValuesOf(xs + [x]) == ValuesOf(xs) + [ValueOf(x)]
  {
  }

  /** Decoder.Decode into an empty any. */
  method DecodeValue(f: Format, data: Bytes) returns (v: Read<Value>, rest: Bytes)
    ensures match Decode(f, data)
            case Got(o, d) => v == Done(ValueOf(o)) && rest == d.s
            case Lost(e) => v == Failed(e)
  {
    var d := new Decoder(f, data);
    var tag := d.ReadTag();
    if tag.Failed? {
      return Failed(tag.error), [];
    }
    v := d.UnmarshalTag(tag.value.0);
    rest := d.r.data;
  }
}
