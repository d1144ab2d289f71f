/** Items as bytes: the three layouts, field by field. */
module ItemLayout {
  import opened Wire
  import opened Varints
  import opened WordBytes
  import opened Fields
  import opened Shapes
  import opened ShapeReading
  import opened ShapeRoundTrip
  import opened Items
  import Nbt = NbtTree
  import NbtFormat
  import NbtLayout

  // ------------------------------------------------------------------ numbers

  /** An unsigned number of 32 bits, as a varint. */
  function Unsigned32(x: int): Bytes { Varuint(x % 0x1_0000_0000) }

  /** A number of 32 bits with a sign, as a zigzag varint. */
  function Signed32(x: int): Bytes
  {
    Varint(if x % 0x1_0000_0000 < 0x8000_0000 then x % 0x1_0000_0000 else x % 0x1_0000_0000 - 0x1_0000_0000)
  }

  function Ascii(s: string): (r: Bytes)
    ensures |r| == |s|
  {
    seq(|s|, k requires 0 <= k < |s| => s[k] as int % 0x100)
  }

  lemma FixedNumber(size: Size, signed: bool, x: int)
    ensures EncForm(Fixed(size, signed), x) == LowBytes(size.Bytes(), x)
  {
  }

  lemma VarNumber(signed: bool, x: int)
    ensures EncForm(Var(W32, signed), x) == if signed then Signed32(x) else Unsigned32(x)
  {
    Pow2Values();
    assert Pow2(31) == 0x8000_0000;
  }

  /** A value of the type is written as it is. */
  lemma SignedAsIs(x: int)
    requires I32.Has(x)
    ensures Signed32(x) == Varint(x)
  {
    Int32Bounds(x);
    hide Pow2;
    if x < 0 {
      DivUnique(x, 0x1_0000_0000, -1, x + 0x1_0000_0000);
    }
  }

  lemma UnsignedAsIs(x: int)
    requires U32.Has(x)
    ensures Unsigned32(x) == Varuint(x)
  {
    hide Varuint, Pow2;
    Pow2Values();
  }

  /** The bytes a field is written as. */
  predicate Written(c: Settings, s: Shape, v: Val, bytes: Bytes)
  {
    Fits(s, v) && Enc(c, s, v) == Wrote(bytes)
  }

  lemma PairWritten(c: Settings, a: Shape, b: Shape, x: Val, y: Val, s: Bytes, t: Bytes)
    requires Written(c, a, x, s) && Written(c, b, y, t)
    ensures Written(c, Pair(a, b), Both(x, y), s + t)
  {
  }

  lemma FixedWritten(c: Settings, size: Size, signed: bool, go: Int, x: int)
    requires go.Has(x)
    ensures Written(c, Num(Fixed(size, signed), go), Integer(x), LowBytes(size.Bytes(), x))
  {
    FixedNumber(size, signed, x);
  }

  lemma SignedWritten(c: Settings, go: Int, x: int)
    requires go.Has(x)
    ensures Written(c, Num(VARINT32, go), Integer(x), Signed32(x))
    ensures I32.Has(x) ==> Signed32(x) == Varint(x)
  {
    VarNumber(true, x);
    if I32.Has(x) { SignedAsIs(x); }
  }

  lemma UnsignedWritten(c: Settings, go: Int, x: int)
    requires go.Has(x)
    ensures Written(c, Num(VARUINT32, go), Integer(x), Unsigned32(x))
    ensures U32.Has(x) ==> Unsigned32(x) == Varuint(x)
  {
    VarNumber(false, x);
    if U32.Has(x) { UnsignedAsIs(x); }
  }

  lemma TextWritten(c: Settings, s: Bytes)
    ensures Written(c, Txt, Str(s), Varuint(|s|) + s)
  {
  }

  lemma UnlessWritten(c: Settings, tag: Tagging, blank: Val, e: Shape, v: Val, bytes: Bytes)
    requires Written(c, e, v, bytes)
    ensures Written(c, Unless(tag, blank, e), v, if Absent(v, blank) then TagBytes(tag, 0) else TagBytes(tag, 1) + bytes)
  {
  }

  // --------------------------------------------------------------- the user data

  /** Strings, each behind its length in two bytes, and all behind their number in four. */
  function Strings(xs: seq<Bytes>): Bytes { LowBytes(4, |xs|) + Lined(xs) }

  function Lined(xs: seq<Bytes>): Bytes
  {
    if xs == [] then [] else (LowBytes(2, |xs[0]|) + xs[0]) + Lined(xs[1..])
  }

  /** No compound: a length of zero. A compound: the length -1, the version 1, and little-endian NBT. */
  function Tag(es: seq<Nbt.Entry>): Bytes
  {
    if es == [] then [0, 0] else [0xFF, 0xFF, 1] + NbtLayout.Document(NbtFormat.LittleEndian, Nbt.Struct(es))
  }

  /** What an item that is there has behind its head: the compound, the two lists, and the tick of a shield. */
  function User(u: UserData, shield: bool): Bytes
  {
    Tag(u.nbt) + (Strings(u.placedOn) + (Strings(u.breaks) + if shield then LowBytes(8, u.tick) else []))
  }

  /** The user data behind its length, or a length of zero. */
  function Tail(u: UserData, present: bool, shield: bool): Bytes
  {
    if present then Varuint(|User(u, shield)|) + User(u, shield) else [0]
  }

  predicate Writable(u: UserData) { u.nbt == [] || NbtLayout.Small(0, Nbt.Struct(u.nbt)) }

  lemma {:induction false} LinedWritten(c: Settings, xs: seq<Bytes>)
    requires forall i | 0 <= i < |xs| :: |xs[i]| <= 0x7FFF
    ensures forall i | 0 <= i < |xs| :: Fits(ShortTxt, Strs(xs)[i])
    ensures EncSome(c, ShortTxt, Strs(xs), |xs|) == Wrote(Lined(xs))
  {
    if xs != [] {
      LinedWritten(c, xs[1..]);
      assert Strs(xs)[1..] == Strs(xs[1..]);
      SmallLengths(|xs[0]|);
    }
  }

  lemma StringsWritten(c: Settings, xs: seq<Bytes>)
    requires Items.ShortStrings(xs)
    ensures Fits(STRINGS, Many(Strs(xs))) && Enc(c, STRINGS, Many(Strs(xs))) == Wrote(Strings(xs))
  {
    hide EncSome, EncForm;
    StringListKept(c, xs);
    LinedWritten(c, xs);
    SmallMod(|xs|, Pow2(32));
    FixedNumber(Four, false, |xs|);
  }

  lemma TagWritten(c: Settings, es: seq<Nbt.Entry>)
    requires es == [] || NbtLayout.Small(0, Nbt.Struct(es))
    ensures EncNested(c, es) == Wrote(Tag(es))
  {
    FixedNumber(Two, true, 0);
    FixedNumber(Two, true, -1);
    LowBytesOfTwo();
    NbtLayout.DocumentWritten(c.Nested(), Nbt.Struct(es));
    assert [0xFF, 0xFF] + [1] == [0xFF, 0xFF, 1];
  }

  lemma LowBytesOfTwo()
    ensures LowBytes(2, 0) == [0, 0] && LowBytes(2, -1) == [0xFF, 0xFF]
  {
    assert Pow2(8 * 0) == 1;
    Pow2Byte();
    assert Pow2(8 * 1) == 0x100;
  }

  /** An item of any layout, in terms of its head. */
  lemma ItemWritten(c: Settings, key: ItemKey, head: Shape, front: Val, front': Bytes, u: UserData)
    requires Fits(head, front) && u.Valid() && Enc(c, head, front) == Wrote(front')
    requires Present(key, front) ==> Writable(u)
    ensures var s := Item(key, head, PERMITS); var v := Stacked(front, u);
      Fits(s, v) && Enc(c, s, v) == Wrote(front' + Tail(u, Present(key, front), c.Shielded(key, front)))
  {
    hide Canon, User, UserData.Valid, Writable, EncUser;
    ItemKept(c, key, head, front, u);
    if Present(key, front) { PresentWritten(c, key, head, front, u); }
  }

  lemma PresentWritten(c: Settings, key: ItemKey, head: Shape, front: Val, u: UserData)
    requires u.Valid() && Writable(u) && Fits(Item(key, head, PERMITS), Stacked(front, u))
    ensures EncUser(c, key, PERMITS, Stacked(front, u)) == Wrote(User(u, c.Shielded(key, front)))
  {
    hide EncForm, NbtLayout.Document, User, Tag, Strings, EncUser;
    TagWritten(c, u.nbt);
    StringsWritten(c, u.placedOn);
    StringsWritten(c, u.breaks);
    FixedNumber(Eight, true, u.tick);
    UserWritten(c, key, front, u);
  }

  /** A compound that the encoder refuses makes the writer fail. */
  lemma ItemRefused(c: Settings, key: ItemKey, head: Shape, front: Val, front': Bytes, u: UserData)
    requires Fits(head, front) && u.Valid() && Enc(c, head, front) == Wrote(front')
    requires Present(key, front) && !Writable(u)
    ensures var s := Item(key, head, PERMITS); var v := Stacked(front, u); Fits(s, v) && Enc(c, s, v).Refused?
  {
    hide NbtLayout.Document, EncForm, EncTick;
    ItemKept(c, key, head, front, u);
    NbtLayout.DocumentWritten(c.Nested(), Nbt.Struct(u.nbt));
    assert EncNested(c, u.nbt).Refused?;
  }

  lemma UserWritten(c: Settings, key: ItemKey, front: Val, u: UserData)
    requires u.Valid() && EncNested(c, u.nbt) == Wrote(Tag(u.nbt))
    requires Fits(PERMITS, Both(Many(Strs(u.placedOn)), Many(Strs(u.breaks))))
    requires Fits(STRINGS, Many(Strs(u.placedOn))) && Enc(c, STRINGS, Many(Strs(u.placedOn))) == Wrote(Strings(u.placedOn))
    requires Fits(STRINGS, Many(Strs(u.breaks))) && Enc(c, STRINGS, Many(Strs(u.breaks))) == Wrote(Strings(u.breaks))
    requires EncForm(TICK, u.tick) == LowBytes(8, u.tick)
    ensures EncUser(c, key, PERMITS, Stacked(front, u)) == Wrote(User(u, c.Shielded(key, front)))
  {
    hide EncForm, EncNested, Tag, Strings;
    var a, b := Strings(u.placedOn), Strings(u.breaks);
    var tick := if c.Shielded(key, front) then LowBytes(8, u.tick) else [];
    assert a + b + tick == a + (b + tick);
  }

  // ------------------------------------------------------------------ item stacks

  /** Network ID, count, metadata and block. */
  function StackHeadBytes(x: ItemStack): Bytes
    requires x.Valid()
  {
    Varint(x.id) + (LowBytes(2, x.count) + (Varuint(x.meta) + Varint(x.block)))
  }

  lemma StackHeadWritten(c: Settings, x: ItemStack)
    requires x.Valid()
    ensures Written(c, STACK.head, x.ToVal().front, StackHeadBytes(x))
  {
    hide Written, UserData.Valid, Signed32, Unsigned32, LowBytes;
    var tail := Pair(Plain(VARUINT32), Plain(VARINT32));
    SignedWritten(c, I32, x.id);
    FixedWritten(c, Two, false, U16, x.count);
    UnsignedWritten(c, U32, x.meta);
    SignedWritten(c, I32, x.block);
    var block, meta, count := Varint(x.block), Varuint(x.meta), LowBytes(2, x.count);
    PairWritten(c, Plain(VARUINT32), Plain(VARINT32), Integer(x.meta), Integer(x.block), meta, block);
    PairWritten(c, COUNT, tail, Integer(x.count), Both(Integer(x.meta), Integer(x.block)), count, meta + block);
    PairWritten(c, Plain(VARINT32), Pair(COUNT, tail), Integer(x.id), x.ToVal().front.b, Varint(x.id), count + (meta + block));
  }

  /** Every item stack is written like this, unless its compound is too deep or has too long a string. */
  lemma StackLayout(c: Settings, x: ItemStack)
    requires x.Valid()
    ensures var s := StackHeadBytes(x) + Tail(x.data, x.id != 0, x.id == c.shield);
      if x.id == 0 || Writable(x.data) then WriteStack(c, x) == Wrote(s) else WriteStack(c, x).Refused?
  {
    hide Enc, Tail, Fits, UserData.Valid;
    StackHeadWritten(c, x);
    if x.id != 0 && !Writable(x.data) {
      ItemRefused(c, ByNumber, STACK.head, x.ToVal().front, StackHeadBytes(x), x.data);
    } else {
      ItemWritten(c, ByNumber, STACK.head, x.ToVal().front, StackHeadBytes(x), x.data);
    }
  }

  // ----------------------------------------------------------------- with a stack ID

  /** The network ID in two bytes, then a stack network ID behind a one, or a zero for none. */
  function InstanceHeadBytes(x: ItemInstance): Bytes
    requires x.Valid()
  {
    LowBytes(2, x.stack.id)
    + (LowBytes(2, x.stack.count)
       + (Varuint(x.stack.meta)
          + ((if x.stackId == 0 then [0] else [1] + Varint(x.stackId)) + Unsigned32(x.stack.block))))
  }

  lemma StackIdWritten(c: Settings, id: int)
    requires I32.Has(id)
    ensures Written(c, Unless(Boolean, Integer(0), Plain(VARINT32)), Integer(id), if id == 0 then [0] else [1] + Varint(id))
  {
    hide Written;
    SignedWritten(c, I32, id);
    UnlessWritten(c, Boolean, Integer(0), Plain(VARINT32), Integer(id), Varint(id));
  }

  lemma InstanceHeadWritten(c: Settings, x: ItemInstance)
    requires x.Valid()
    ensures Written(c, INSTANCE.head, x.ToVal().front, InstanceHeadBytes(x))
  {
    hide Written, UserData.Valid, Signed32, Unsigned32, LowBytes;
    var y, front := x.stack, x.ToVal().front;
    var stackId := if x.stackId == 0 then [0] else [1] + Varint(x.stackId);
    var block, meta, count := Unsigned32(y.block), Varuint(y.meta), LowBytes(2, y.count);
    var shapes := INSTANCE.head.second;
    FixedWritten(c, Two, true, I32, y.id);
    FixedWritten(c, Two, false, U16, y.count);
    UnsignedWritten(c, U32, y.meta);
    StackIdWritten(c, x.stackId);
    UnsignedWritten(c, I32, y.block);
    PairWritten(c, shapes.second.second.first, Num(VARUINT32, I32), Integer(x.stackId), Integer(y.block), stackId, block);
    PairWritten(c, Plain(VARUINT32), shapes.second.second, Integer(y.meta), front.b.b.b, meta, stackId + block);
    PairWritten(c, COUNT, shapes.second, Integer(y.count), front.b.b, count, meta + (stackId + block));
    PairWritten(c, Num(Fixed(Two, true), I32), shapes, Integer(y.id), front.b, LowBytes(2, y.id),
                count + (meta + (stackId + block)));
  }

  /** Every item instance is written like this; whether it is there and a shield is a matter of the ID in full. */
  lemma InstanceLayout(c: Settings, x: ItemInstance)
    requires x.Valid()
    ensures var s := InstanceHeadBytes(x) + Tail(x.stack.data, x.stack.id != 0, x.stack.id == c.shield);
      if x.stack.id == 0 || Writable(x.stack.data) then WriteInstance(c, x) == Wrote(s) else WriteInstance(c, x).Refused?
  {
    hide Enc, Tail, Fits, UserData.Valid;
    InstanceHeadWritten(c, x);
    if x.stack.id != 0 && !Writable(x.stack.data) {
      ItemRefused(c, ByNumber, INSTANCE.head, x.ToVal().front, InstanceHeadBytes(x), x.stack.data);
    } else {
      ItemWritten(c, ByNumber, INSTANCE.head, x.ToVal().front, InstanceHeadBytes(x), x.stack.data);
    }
  }

  // ------------------------------------------------------------------ request items

  /** The identifier behind two ones, with the metadata, or two zeros for none; then count and block. */
  function RequestItemHeadBytes(x: StackRequestItem): Bytes
    requires x.Valid()
  {
    (if x.name == [] then [0, 0] else [1, 1] + ((Varuint(|x.name|) + x.name) + Signed32(x.meta)))
    + (LowBytes(2, x.count) + Unsigned32(x.block))
  }

  lemma NameWritten(c: Settings, name: Bytes, meta: int)
    requires U32.Has(meta)
    ensures Written(c, Unless(Loose, NO_ITEM, Pair(Txt, Num(VARINT32, U32))), Both(Str(name), Integer(meta)),
                    if name == [] then [0, 0] else [1, 1] + ((Varuint(|name|) + name) + Signed32(meta)))
  {
    hide Written, Signed32;
    SignedWritten(c, U32, meta);
    TextWritten(c, name);
    PairWritten(c, Txt, Num(VARINT32, U32), Str(name), Integer(meta), Varuint(|name|) + name, Signed32(meta));
    UnlessWritten(c, Loose, NO_ITEM, Pair(Txt, Num(VARINT32, U32)), Both(Str(name), Integer(meta)),
                  (Varuint(|name|) + name) + Signed32(meta));
    LooseTags();
  }

  lemma LooseTags()
    ensures TagBytes(Loose, 0) == [0, 0] && TagBytes(Loose, 1) == [1, 1]
  {
  }

  lemma RequestItemHeadWritten(c: Settings, x: StackRequestItem)
    requires x.Valid()
    ensures Written(c, REQUEST_ITEM.head, x.ToVal().front, RequestItemHeadBytes(x))
  {
    hide Written, UserData.Valid, Signed32, Unsigned32, LowBytes;
    var name := if x.name == [] then [0, 0] else [1, 1] + ((Varuint(|x.name|) + x.name) + Signed32(x.meta));
    var count, block := LowBytes(2, x.count), Unsigned32(x.block);
    NameWritten(c, x.name, x.meta);
    FixedWritten(c, Two, true, U16, x.count);
    UnsignedWritten(c, I32, x.block);
    PairWritten(c, Num(Fixed(Two, true), U16), Num(VARUINT32, I32), Integer(x.count), Integer(x.block), count, block);
    PairWritten(c, REQUEST_ITEM.head.first, REQUEST_ITEM.head.second, x.ToVal().front.a, x.ToVal().front.b, name, count + block);
  }

  lemma ShieldName()
    ensures SHIELD == Ascii("minecraft:shield")
  {
    var s := "minecraft:shield";
    forall k | 0 <= k < 16 ensures SHIELD[k] == s[k] as int % 0x100 {
    }
  }

  /** Every request item is written like this; it is a shield by its name. */
  lemma RequestItemLayout(c: Settings, x: StackRequestItem)
    requires x.Valid()
    ensures var s := RequestItemHeadBytes(x) + Tail(x.data, x.name != [], x.name == Ascii("minecraft:shield"));
      if x.name == [] || Writable(x.data) then WriteRequestItem(c, x) == Wrote(s) else WriteRequestItem(c, x).Refused?
  {
    hide Enc, Tail, Fits, UserData.Valid, Ascii;
    RequestItemHeadWritten(c, x);
    ShieldName();
    if x.name != [] && !Writable(x.data) {
      ItemRefused(c, ByName, REQUEST_ITEM.head, x.ToVal().front, RequestItemHeadBytes(x), x.data);
    } else {
      ItemWritten(c, ByName, REQUEST_ITEM.head, x.ToVal().front, RequestItemHeadBytes(x), x.data);
    }
  }
}
