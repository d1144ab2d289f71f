/** Reading back what was written, for every shape and every value of it. */
module ShapeRoundTrip {
  import opened Wire
  import opened Varints
  import opened Fields
  import opened Shapes
  import opened ShapeReading
  import NbtFormat
  import Nbt = NbtTree
  import NbtDecode
  import NbtRoundTrip

  /**
   * A reader's outcome on what was written for a value, with t after it: the value and t, and no short read on the way,
   * or the error of the verdict.
   */
  predicate Back<T(==)>(r: Out<T>, verdict: Option<Error>, v: T, t: Bytes, i: In)
  {
    match verdict
    case Some(e) => r == Bad(e)
    case None => r.Got? && r.v == v && r.left.data == t && r.left.cut == i.cut && r.left.Valid()
  }

  const LONGEST := 0x7FFF_FFFF

  /** Some bytes were written, not more than an int32 counts, and the input is those bytes and t. */
  predicate Input(e: Encoded, t: Bytes, i: In)
  {
    i.Valid() && e.Wrote? && |e.bytes| <= LONGEST && i.data == e.bytes + t
  }

  lemma InputSplits(a: Encoded, b: Encoded, t: Bytes, i: In)
    requires Input(Nbt.Then(a, b), t, i)
    ensures a.Wrote? && b.Wrote? && Length(b) + |t| == |b.bytes + t| && Input(a, b.bytes + t, i)
    ensures |b.bytes| <= LONGEST
  {
    assert a.bytes + b.bytes + t == a.bytes + (b.bytes + t);
  }

  lemma FormBack(f: Form, x: int, t: Bytes, i: In)
    requires i.Valid() && i.data == EncForm(f, x) + t
    ensures Back(DecForm(f, i), None, f.Type().Of(x), t, i)
  {
    hide Varint, Varuint, Number, LittleValue;
    Pow2Values();
    OfHas(f.Type(), x);
    match f
    case OneByte => assert i.data[1..] == t;
    case Fixed(size, _) =>
      var u := ToWord(8 * size.Bytes(), x);
      NumberRoundTrip(size.Bytes(), u, t, i);
      SmallMod(u, Pow2(8 * size.Bytes()));
    case Var(w, signed) =>
      if signed {
        VarintRoundTrip(w, f.Type().Of(x), t);
      } else {
        VaruintRoundTrip(w, f.Type().Of(x), t);
      }
  }

  lemma TagBack(tag: Tagging, n: nat, k: nat, t: Bytes, i: In)
    requires i.Valid() && k < n && tag.Fits(n) && i.data == TagBytes(tag, k) + t
    ensures Back(ReadTag(tag, n, i), None, k, t, i)
  {
    Pow2Values();
    match tag
    case Boolean => assert i.data[1..] == t;
    case Word =>
      SmallMod(k, Pow2(32));
      NumberRoundTrip(4, k, t, i);
      OfHas(I32, k);
    case _ => PairedTagBack(tag, n, k, t, i);
  }

  lemma PairedTagBack(tag: Tagging, n: nat, k: nat, t: Bytes, i: In)
    requires tag.Echoed? || tag.Loose? || tag.Action?
    requires i.Valid() && k < n <= 0x100 && i.data == TagBytes(tag, k) + t
    ensures Back(ReadTag(tag, n, i), None, k, t, i)
  {
    hide Varuint, ReadVaruint, ActionId, Pow2;
    Pow2Values();
    var b := LegacyByte(tag, k);
    assert TagBytes(tag, k) + t == Varuint(k) + ([b] + t);
    VaruintRoundTrip(W32, k, [b] + t);
    assert ([b] + t)[1..] == t;
  }

  lemma CompoundBack(f: NbtFormat.Format, es: seq<Nbt.Entry>, t: Bytes, i: In)
    requires Nbt.Sound(Nbt.Struct(es)) && Input(Nbt.Encode(f, Nbt.Struct(es)), t, i)
    ensures Back(DecCompound(f, i), Stops(f, es), NbtRoundTrip.RawEntries(es), t, i)
  {
    var o := Nbt.Struct(es);
    NbtRoundTrip.DecodeOfEncode(f, o, t);
    RootIsCompound(f, es, t);
  }

  lemma RootIsCompound(f: NbtFormat.Format, es: seq<Nbt.Entry>, t: Bytes)
    requires Nbt.Encode(f, Nbt.Struct(es)).Wrote?
    ensures var s := Nbt.Encode(f, Nbt.Struct(es)).bytes + t;
      var r := NbtDecode.DecTag(f, NbtDecode.Dec(s, |s|, 0));
      r.Got? && r.v.0 == Nbt.TAG_STRUCT
  {
    var o := Nbt.Struct(es);
    var s := Nbt.Encode(f, o).bytes + t;
    var body := Nbt.EncPayload(f, 0, o).bytes + t;
    assert s == Nbt.EncTag(f, 0, o.Tag(), []).bytes + body;
    NbtRoundTrip.TagDecodes(f, 0, o.Tag(), [], NbtDecode.Dec(s, |s|, 0), body);
  }

  lemma NestedBack(c: Settings, es: seq<Nbt.Entry>, t: Bytes, i: In)
    requires Nbt.Sound(Nbt.Struct(es)) && Input(EncNested(c, es), t, i)
    ensures Back(DecNested(c, i), if es == [] then None else Stops(c.Nested(), es), NbtRoundTrip.RawEntries(es), t, i)
  {
    hide DecCompound, Stops, NbtRoundTrip.RawEntries, Pow2, ReadNumber, LittleBytes;
    OfHas(I16, 0);
    OfHas(I16, -1);
    Pow2Values();
    if es == [] {
      FormBack(Fixed(Two, true), 0, t, i);
    } else {
      var head, body := EncForm(Fixed(Two, true), -1), Nbt.Encode(c.Nested(), Nbt.Struct(es));
      InputSplits(Wrote(head + [1]), body, t, i);
      assert i.data == head + ([1] + (body.bytes + t));
      FormBack(Fixed(Two, true), -1, [1] + (body.bytes + t), i);
      var left := DecForm(Fixed(Two, true), i).left;
      assert ([1] + (body.bytes + t))[1..] == body.bytes + t;
      var left' := DecForm(OneByte, left).left;
      CompoundBack(c.Nested(), es, t, left');
    }
  }

  /**
   * Round trip. For every shape, every value of it and whatever follows: a reader gets the value back, as Canon has it,
   * and stands where the value ends, exactly when the verdict finds nothing; otherwise it fails with the verdict's error.
   */
  lemma {:induction false} ReadsBack(c: Settings, s: Shape, v: Val, t: Bytes, i: In)
    requires Fits(s, v) && Input(Enc(c, s, v), t, i)
    ensures Back(Dec(c, s, i), Verdict(c, s, v, |t|), Canon(c, s, v), t, i)
    decreases v, s, 2
  {
    match s
    case Nothing => LeafBack(c, s, v, t, i);
    case Num(_, _) => LeafBack(c, s, v, t, i);
    case Txt => LeafBack(c, s, v, t, i);
    case ShortTxt => LeafBack(c, s, v, t, i);
    case Pair(_, _) => PairBack(c, s, v, t, i);
    case Slice(_, _) => SliceBack(c, s, v, t, i);
    case Union(_, _) => UnionBack(c, s, v, t, i);
    case Unless(_, _, _) => UnlessBack(c, s, v, t, i);
    case Store => StoreBack(c, v, t, i);
    case Compound => LeafBack(c, s, v, t, i);
    case Item(_, _, _) => ItemBack(c, s, v, t, i);
  }

  lemma LeafBack(c: Settings, s: Shape, v: Val, t: Bytes, i: In)
    requires s.Nothing? || s.Num? || s.Txt? || s.ShortTxt? || s.Compound?
    requires Fits(s, v) && Input(Enc(c, s, v), t, i)
    ensures Back(Dec(c, s, i), Verdict(c, s, v, |t|), Canon(c, s, v), t, i)
  {
    match s
    case Nothing =>
    case Num(form, _) => FormBack(form, v.n, t, i);
    case Txt => TextRoundTrip(v.s, t, i);
    case ShortTxt => ShortTextRoundTrip(v.s, t, i);
    case Compound => CompoundBack(c.Network(), v.entries, t, i);
  }

  lemma {:induction false} PairBack(c: Settings, s: Shape, v: Val, t: Bytes, i: In)
    requires s.Pair? && Fits(s, v) && Input(Enc(c, s, v), t, i)
    ensures Back(Dec(c, s, i), Verdict(c, s, v, |t|), Canon(c, s, v), t, i)
    decreases v, s, 1
  {
    InputSplits(Enc(c, s.first, v.a), Enc(c, s.second, v.b), t, i);
    ReadsBack(c, s.first, v.a, Enc(c, s.second, v.b).bytes + t, i);
    var r := Dec(c, s.first, i);
    if r.Got? { ReadsBack(c, s.second, v.b, t, r.left); }
  }

  lemma {:induction false} UnionBack(c: Settings, s: Shape, v: Val, t: Bytes, i: In)
    requires s.Union? && Fits(s, v) && Input(Enc(c, s, v), t, i)
    ensures Back(Dec(c, s, i), Verdict(c, s, v, |t|), Canon(c, s, v), t, i)
    decreases v, s, 1
  {
    hide TagBytes, ReadTag;
    var body := Enc(c, s.cases[v.k], v.v);
    InputSplits(Wrote(TagBytes(s.tag, v.k)), body, t, i);
    TagBack(s.tag, |s.cases|, v.k, body.bytes + t, i);
    ReadsBack(c, s.cases[v.k], v.v, t, ReadTag(s.tag, |s.cases|, i).left);
  }

  lemma {:induction false} UnlessBack(c: Settings, s: Shape, v: Val, t: Bytes, i: In)
    requires s.Unless? && Fits(s, v) && s.tag.Fits(2) && Input(Enc(c, s, v), t, i)
    ensures Back(Dec(c, s, i), Verdict(c, s, v, |t|), Canon(c, s, v), t, i)
    decreases v, s, 1
  {
    if Absent(v, s.blank) {
      TagBack(s.tag, 2, 0, t, i);
    } else {
      InputSplits(Wrote(TagBytes(s.tag, 1)), Enc(c, s.element, v), t, i);
      TagBack(s.tag, 2, 1, Enc(c, s.element, v).bytes + t, i);
      ReadsBack(c, s.element, v, t, ReadTag(s.tag, 2, i).left);
    }
  }

  lemma {:induction false} StoreBack(c: Settings, v: Val, t: Bytes, i: In)
    requires Fits(Store, v) && Input(Enc(c, Store, v), t, i)
    ensures Back(Dec(c, Store, i), Verdict(c, Store, v, |t|), Canon(c, Store, v), t, i)
    decreases v, Store, 1
  {
    var body := Enc(c, STORE_CASES[v.k], v.v);
    InputSplits(Wrote(TagBytes(Word, v.k)), body, t, i);
    TagBack(Word, 7, v.k, body.bytes + t, i);
    ReadsBack(c, STORE_CASES[v.k], v.v, t, ReadTag(Word, 7, i).left);
  }

  lemma {:induction false} SliceBack(c: Settings, s: Shape, v: Val, t: Bytes, i: In)
    requires s.Slice? && Fits(s, v) && Input(Enc(c, s, v), t, i)
    ensures Back(DecSlice(c, s, i), Verdict(c, s, v, |t|), Canon(c, s, v), t, i)
    decreases v, s, 1
  {
    var n := s.count.Of(|v.xs|);
    var body := EncSome(c, s.element, v.xs, n);
    InputSplits(Wrote(EncForm(s.count.Form(), |v.xs|)), body, t, i);
    FormBack(s.count.Form(), |v.xs|, body.bytes + t, i);
    var left := DecForm(s.count.Form(), i).left;
    if !TooMany(c, s.count, n, |left.data|) {
      SomeBack(c, s.element, v.xs, n, t, left);
    }
  }

  lemma {:induction false} SomeBack(c: Settings, e: Shape, xs: seq<Val>, n: nat, t: Bytes, i: In)
    requires n <= |xs| && (forall k | 0 <= k < |xs| :: Fits(e, xs[k]))
    requires Input(EncSome(c, e, xs, n), t, i)
    ensures Back(DecMany(c, e, n, i), VerdictSome(c, e, xs, n, |t|), CanonSome(c, e, xs, n), t, i)
    decreases xs, e, 1
  {
    hide Dec, Enc, Canon, Verdict, Fits;
    if n > 0 {
      var rest := EncSome(c, e, xs[1..], n - 1);
      InputSplits(Enc(c, e, xs[0]), rest, t, i);
      ReadsBack(c, e, xs[0], rest.bytes + t, i);
      var r := Dec(c, e, i);
      if r.Got? { SomeBack(c, e, xs[1..], n - 1, t, r.left); }
    }
  }

  lemma {:induction false} ItemBack(c: Settings, s: Shape, v: Val, t: Bytes, i: In)
    requires s.Item? && Fits(s, v) && Input(Enc(c, s, v), t, i)
    ensures Back(Dec(c, s, i), Verdict(c, s, v, |t|), Canon(c, s, v), t, i)
    decreases v, s, 1
  {
    hide DecBox, EncUser, VerdictUser, VerdictSome, CanonSome, EncSome;
    var user := if Present(s.key, v.front) then Boxed(EncUser(c, s.key, s.lists, v)) else Wrote(Text([]));
    InputSplits(Enc(c, s.head, v.front), user, t, i);
    ReadsBack(c, s.head, v.front, user.bytes + t, i);
    var r := Dec(c, s.head, i);
    if r.Got? {
      BoxBack(c, s, v, t, r.left);
    }
  }

  lemma {:induction false} BoxBack(c: Settings, s: Shape, v: Val, t: Bytes, i: In)
    requires s.Item? && Fits(s, v)
    requires Input(if Present(s.key, v.front) then Boxed(EncUser(c, s.key, s.lists, v)) else Wrote(Text([])), t, i)
    ensures Back(DecBox(c, s.key, s.lists, Canon(c, s.head, v.front), i),
                 if Present(s.key, v.front) then VerdictUser(c, s.key, s.head, s.lists, v) else None,
                 Canon(c, s, v), t, i)
    decreases v, s, 0
  {
    hide DecUser, EncUser, VerdictUser;
    if Present(s.key, v.front) {
      var extra := EncUser(c, s.key, s.lists, v);
      TextRoundTrip(extra.bytes, t, i);
      assert extra.bytes + [] == extra.bytes;
      UserNotEmpty(c, s.key, s.lists, v);
      UserBack(c, s, v, Start(extra.bytes));
    } else {
      TextRoundTrip([], t, i);
    }
  }

  lemma UserNotEmpty(c: Settings, key: ItemKey, lists: Shape, v: Val)
    requires v.Stack? && Fits(lists, v.permits) && EncUser(c, key, lists, v).Wrote?
    ensures EncUser(c, key, lists, v).bytes != []
  {
    assert |Number(2, ToWord(16, 0))| == 2 && |Number(2, ToWord(16, -1))| == 2;
  }

  lemma CanonOfItem(c: Settings, s: Shape, v: Val)
    requires s.Item? && Fits(s, v) && Present(s.key, v.front)
    ensures var front := Canon(c, s.head, v.front);
      Canon(c, s, v) ==
      Stack(front, NbtRoundTrip.RawEntries(v.nbt), Canon(c, s.lists, v.permits),
            if c.Shielded(s.key, v.front) && c.Shielded(s.key, front) then v.tick else 0)
  {
  }

  lemma {:induction false} UserBack(c: Settings, s: Shape, v: Val, i: In)
    requires s.Item? && Fits(s, v) && Present(s.key, v.front)
    requires Input(EncUser(c, s.key, s.lists, v), [], i)
    ensures Settled(DecUser(c, s.key, s.lists, Canon(c, s.head, v.front), i),
                    VerdictUser(c, s.key, s.head, s.lists, v), Canon(c, s, v))
    decreases v, s.lists, 4
  {
    hide Dec, Enc, Canon, Verdict, DecNested, EncNested, DecPermits, EncTick, Stops;
    var rest := Nbt.Then(Enc(c, s.lists, v.permits), EncTick(c, s.key, v));
    InputSplits(EncNested(c, v.nbt), rest, [], i);
    NestedBack(c, v.nbt, rest.bytes + [], i);
    var r := DecNested(c, i);
    if r.Got? { PermitsBack(c, s, v, r.left); }
  }

  predicate Settled(r: Out<Val>, verdict: Option<Error>, v: Val)
  {
    match verdict
    case Some(e) => r == Bad(e)
    case None => r.Got? && r.v == v
  }

  lemma {:induction false} PermitsBack(c: Settings, s: Shape, v: Val, i: In)
    requires s.Item? && Fits(s, v) && Present(s.key, v.front)
    requires Input(Nbt.Then(Enc(c, s.lists, v.permits), EncTick(c, s.key, v)), [], i)
    ensures
      Settled(DecPermits(c, s.key, s.lists, Canon(c, s.head, v.front), NbtRoundTrip.RawEntries(v.nbt), i),
              First(Verdict(c, s.lists, v.permits, Length(EncTick(c, s.key, v))),
                    ShieldMistaken(c, s.key, Canon(c, s.head, v.front), v.front)), Canon(c, s, v))
    decreases v, s.lists, 3
  {
    hide Dec, Enc, Canon, Verdict, DecTick, EncTick, ShieldMistaken;
    var tick := EncTick(c, s.key, v);
    CanonOfItem(c, s, v);
    InputSplits(Enc(c, s.lists, v.permits), tick, [], i);
    ReadsBack(c, s.lists, v.permits, tick.bytes + [], i);
    var r := Dec(c, s.lists, i);
    if r.Got? { TickBack(c, s.key, Canon(c, s.head, v.front), v, r.left); }
  }

  lemma TickBack(c: Settings, key: ItemKey, front: Val, v: Val, i: In)
    requires v.Stack? && I64.Has(v.tick) && i.Valid() && i.data == EncTick(c, key, v).bytes + []
    ensures var r := DecTick(c, key, front, i);
      match ShieldMistaken(c, key, front, v.front)
      case Some(e) => r == Bad(e)
      case None => r.Got? && r.v == if c.Shielded(key, v.front) && c.Shielded(key, front) then v.tick else 0
  {
    if c.Shielded(key, v.front) {
      FormBack(TICK, v.tick, [], i);
      OfHas(I64, v.tick);
    }
  }
}
