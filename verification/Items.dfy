/** Items: the three layouts they are sent in, and what of an item survives being written and read back. */
module Items {
  import opened Wire
  import opened Fields
  import opened Shapes
  import opened ShapeReading
  import opened ShapeRoundTrip
  import opened ShapeLimits
  import opened ShapeKept
  import Nbt = NbtTree
  import NbtDecode
  import NbtRoundTrip
  import NbtValues

  const STRINGS := Slice(WordCount, ShortTxt)
  const PERMITS := Pair(STRINGS, STRINGS)
  const COUNT := Plain(Fixed(Two, false))

  /** Item: network ID, count, metadata and block, then the user data. */
  const STACK :=
    Item(ByNumber, Pair(Plain(VARINT32), Pair(COUNT, Pair(Plain(VARUINT32), Plain(VARINT32)))), PERMITS)

  /** ItemInstance: the network ID in 16 bits, and a stack network ID unless it is zero. */
  const INSTANCE :=
    Item(ByNumber,
         Pair(Num(Fixed(Two, true), I32),
              Pair(COUNT, Pair(Plain(VARUINT32),
                               Pair(Unless(Boolean, Integer(0), Plain(VARINT32)), Num(VARUINT32, I32))))),
         PERMITS)

  const NO_ITEM := Both(Str([]), Integer(0))

  /** StackRequestItem: an identifier and metadata in place of the network ID, or neither where the identifier is empty. */
  const REQUEST_ITEM :=
    Item(ByName,
         Pair(Unless(Loose, NO_ITEM, Pair(Txt, Num(VARINT32, U32))), Pair(Num(Fixed(Two, true), U16), Num(VARUINT32, I32))),
         PERMITS)

  /** The Go fields NBTData, CanBePlacedOn, CanBreak and BlockingTick. A map comes with an order of its keys. */
  datatype UserData = UserData(nbt: seq<Nbt.Entry>, placedOn: seq<Bytes>, breaks: seq<Bytes>, tick: int) {
    predicate Valid()
    {
      && Nbt.Sound(Nbt.Struct(nbt)) && ShortStrings(placedOn) && ShortStrings(breaks) && I64.Has(tick)
    }
    /** The user data as it is read back where an item is there, with the tick of a shield only. */
    function Read(shield: bool): UserData
    {
      UserData(NbtRoundTrip.RawEntries(nbt), placedOn, breaks, if shield then tick else 0)
    }
    /** What a reader's limits ask of it: at most 1024 strings a list, and a compound the NBT decoder gets through. */
    predicate Within(c: Settings)
    {
      && (c.limits ==> |placedOn| <= 1024 && |breaks| <= 1024)
      && (nbt == [] || Stops(c.Nested(), nbt) == None)
    }
  }

  const NO_DATA := UserData([], [], [], 0)

  /** Strings that fit the 16-bit length of StringUTF, and no more of them than a uint32 counts. */
  predicate ShortStrings(xs: seq<Bytes>)
  {
    |xs| < Pow2(32) && forall i | 0 <= i < |xs| :: |xs[i]| <= 0x7FFF
  }

  function Strs(xs: seq<Bytes>): (r: seq<Val>)
    ensures |r| == |xs| && forall i | 0 <= i < |xs| :: r[i] == Str(xs[i])
  {
    if xs == [] then [] else [Str(xs[0])] + Strs(xs[1..])
  }

  function Stacked(front: Val, u: UserData): Val
  {
    Stack(front, u.nbt, Both(Many(Strs(u.placedOn)), Many(Strs(u.breaks))), u.tick)
  }

  // --------------------------------------------------------------- item stacks

  datatype ItemStack = ItemStack(id: int, count: int, meta: int, block: int, data: UserData) {
    /** The ranges of the Go fields. */
    predicate Valid()
    {
      I32.Has(id) && U16.Has(count) && U32.Has(meta) && I32.Has(block) && data.Valid()
    }
    function ToVal(): Val
    {
      Stacked(Both(Integer(id), Both(Integer(count), Both(Integer(meta), Integer(block)))), data)
    }
  }

  datatype ItemInstance = ItemInstance(stackId: int, stack: ItemStack) {
    predicate Valid() { I32.Has(stackId) && stack.Valid() }
    function ToVal(): Val
    {
      Stacked(Both(Integer(stack.id), Both(Integer(stack.count),
                                           Both(Integer(stack.meta), Both(Integer(stackId), Integer(stack.block))))),
              stack.data)
    }
  }

  datatype StackRequestItem = StackRequestItem(name: Bytes, meta: int, block: int, count: int, data: UserData) {
    predicate Valid()
    {
      U32.Has(meta) && I32.Has(block) && U16.Has(count) && data.Valid()
    }
    function ToVal(): Val
    {
      Stacked(Both(Both(Str(name), Integer(meta)), Both(Integer(count), Integer(block))), data)
    }
  }

  // ------------------------------------------------------------------- lemmas

  lemma StringKept(c: Settings, x: Bytes)
    requires |x| <= 0x7FFF
    ensures Fits(ShortTxt, Str(x)) && Canon(c, ShortTxt, Str(x)) == Str(x) && Within(c, ShortTxt, Str(x))
  {
  }

  lemma PermitsKept(c: Settings, u: UserData)
    requires u.Valid()
    ensures var v := Both(Many(Strs(u.placedOn)), Many(Strs(u.breaks)));
      && Fits(PERMITS, v) && Canon(c, PERMITS, v) == v
      && (Within(c, PERMITS, v) <==> (c.limits ==> |u.placedOn| <= MAX_SLICE && |u.breaks| <= MAX_SLICE))
  {
    StringListKept(c, u.placedOn);
    StringListKept(c, u.breaks);
  }

  lemma SliceKept(c: Settings, vs: seq<Val>)
    requires |vs| < Pow2(32) && forall i | 0 <= i < |vs| :: Fits(ShortTxt, vs[i])
    requires forall i | 0 <= i < |vs| :: Canon(c, ShortTxt, vs[i]) == vs[i] && Within(c, ShortTxt, vs[i])
    ensures var v := Many(vs);
      && Fits(STRINGS, v) && Canon(c, STRINGS, v) == v && (Within(c, STRINGS, v) <==> (c.limits ==> |vs| <= MAX_SLICE))
  {
    hide CanonSome, WithinSome;
    SmallMod(|vs|, Pow2(32));
    SomeKept(c, ShortTxt, vs, |vs|);
    SomeWithin(c, ShortTxt, vs, |vs|);
    assert vs[..|vs|] == vs;
  }

  lemma StringListKept(c: Settings, xs: seq<Bytes>)
    requires ShortStrings(xs)
    ensures var v := Many(Strs(xs));
      && Fits(STRINGS, v) && Canon(c, STRINGS, v) == v && (Within(c, STRINGS, v) <==> (c.limits ==> |xs| <= MAX_SLICE))
  {
    hide CanonSome, WithinSome;
    var vs := Strs(xs);
    forall i | 0 <= i < |xs|
      ensures Fits(ShortTxt, vs[i]) && Canon(c, ShortTxt, vs[i]) == vs[i] && Within(c, ShortTxt, vs[i])
    {
      StringKept(c, xs[i]);
    }
    SliceKept(c, vs);
  }

  /** An item of any of the three layouts: what is read back of it, and when. */
  lemma ItemKept(c: Settings, key: ItemKey, head: Shape, front: Val, u: UserData)
    requires Fits(head, front) && u.Valid()
    ensures var s, v, read := Item(key, head, PERMITS), Stacked(front, u), Canon(c, head, front);
      && Fits(s, v)
      && Canon(c, s, v) == (if !Present(key, front) then Stacked(read, NO_DATA)
                            else Stacked(read, u.Read(c.Shielded(key, front) && c.Shielded(key, read))))
      && (Within(c, s, v) <==>
            && Within(c, head, front)
            && (Present(key, front) ==> u.Within(c) && ShieldMistaken(c, key, read, front) == None))
  {
    PermitsKept(c, u);
    assert Strs([]) == [];
  }

  /** What NBTData is as a Go map once it is read back: the normal form of what it was. */
  lemma NbtData(u: UserData, shield: bool)
    requires u.Valid()
    ensures NbtDecode.FieldsOf(u.Read(shield).nbt) ==
            NbtValues.NormalForm(Nbt.Compound(Nbt.EraseEntries(u.nbt))).fields
  {
    NbtValues.ReadBackIsNormalForm(Nbt.Struct(u.nbt));
  }

  // -------------------------------------------------------- from values to items

  function IntIn(v: Val): int { if v.Integer? then v.n else 0 }

  function StrIn(v: Val): Bytes { if v.Str? then v.s else [] }

  function StrsIn(xs: seq<Val>): (r: seq<Bytes>)
    ensures |r| == |xs| && forall i | 0 <= i < |xs| :: r[i] == StrIn(xs[i])
  {
    if xs == [] then [] else [StrIn(xs[0])] + StrsIn(xs[1..])
  }

  /** The Go fields an item's value fills. */
  function DataIn(v: Val): UserData
  {
    if v.Stack? && v.permits.Both? && v.permits.a.Many? && v.permits.b.Many? then
      UserData(v.nbt, StrsIn(v.permits.a.xs), StrsIn(v.permits.b.xs), v.tick)
    else NO_DATA
  }

  function At(v: Val, k: nat): Val
    decreases k
  {
    if !v.Both? then v else if k == 0 then v.a else At(v.b, k - 1)
  }

  function FrontOf(v: Val): Val { if v.Stack? then v.front else Unit }

  function StackIn(v: Val): ItemStack
  {
    var f := FrontOf(v);
    ItemStack(IntIn(At(f, 0)), IntIn(At(f, 1)), IntIn(At(f, 2)), IntIn(At(f, 3)), DataIn(v))
  }

  function InstanceIn(v: Val): ItemInstance
  {
    var f := FrontOf(v);
    ItemInstance(IntIn(At(f, 3)),
                 ItemStack(IntIn(At(f, 0)), IntIn(At(f, 1)), IntIn(At(f, 2)), IntIn(At(f, 4)), DataIn(v)))
  }

  function RequestItemIn(v: Val): StackRequestItem
  {
    var f := FrontOf(v);
    StackRequestItem(StrIn(At(At(f, 0), 0)), IntIn(At(At(f, 0), 1)), IntIn(At(f, 2)), IntIn(At(f, 1)), DataIn(v))
  }

  lemma DataBack(front: Val, u: UserData)
    ensures DataIn(Stacked(front, u)) == u
  {
    assert StrsIn(Strs(u.placedOn)) == u.placedOn;
    assert StrsIn(Strs(u.breaks)) == u.breaks;
  }

  function Map<T>(r: Out<Val>, f: Val -> T): Out<T>
  {
    match r case Bad(e) => Bad(e) case Got(v, left) => Got(f(v), left)
  }

  function ReadStack(c: Settings, i: In): Out<ItemStack>
    requires i.Valid()
  {
    Map(Dec(c, STACK, i), StackIn)
  }

  function ReadInstance(c: Settings, i: In): Out<ItemInstance>
    requires i.Valid()
  {
    Map(Dec(c, INSTANCE, i), InstanceIn)
  }

  function ReadRequestItem(c: Settings, i: In): Out<StackRequestItem>
    requires i.Valid()
  {
    Map(Dec(c, REQUEST_ITEM, i), RequestItemIn)
  }

  // ------------------------------------------------------------------- item heads

  predicate Good(c: Settings, s: Shape, v: Val)
  {
    Fits(s, v) && Grounded(s) && Lossless(c, s, v) && Within(c, s, v)
  }

  lemma NumGood(c: Settings, form: Form, go: Int, x: int)
    requires go.Has(x) && NumberKept(form, go, x)
    ensures Good(c, Num(form, go), Integer(x))
  {
  }

  lemma PairGood(c: Settings, a: Shape, b: Shape, x: Val, y: Val)
    requires Good(c, a, x) && Good(c, b, y)
    ensures Good(c, Pair(a, b), Both(x, y))
  {
  }

  lemma StackHead(c: Settings, x: ItemStack)
    requires x.Valid()
    ensures Good(c, STACK.head, x.ToVal().front)
  {
    hide Good;
    NumGood(c, VARUINT32, U32, x.meta);
    NumGood(c, VARINT32, I32, x.block);
    PairGood(c, Plain(VARUINT32), Plain(VARINT32), Integer(x.meta), Integer(x.block));
    NumGood(c, Fixed(Two, false), U16, x.count);
    PairGood(c, COUNT, STACK.head.second.second, Integer(x.count), x.ToVal().front.b.b);
    NumGood(c, VARINT32, I32, x.id);
    PairGood(c, Plain(VARINT32), STACK.head.second, Integer(x.id), x.ToVal().front.b);
  }

  lemma ItemGrounded(key: ItemKey, head: Shape)
    requires Grounded(head)
    ensures Grounded(Item(key, head, PERMITS))
  {
    assert Grounded(STRINGS);
  }

  // -------------------------------------------------------------- the round trips

  lemma StackFits(c: Settings, x: ItemStack)
    requires x.Valid()
    ensures Fits(STACK, x.ToVal())
    ensures Canon(c, STACK, x.ToVal()) == x.(data := if x.id == 0 then NO_DATA else x.data.Read(x.id == c.shield)).ToVal()
    ensures Within(c, STACK, x.ToVal()) <==> (x.id != 0 ==> x.data.Within(c))
  {
    hide Canon, Within, Lossless, Fits;
    var front := x.ToVal().front;
    StackHead(c, x);
    LosslessIsKept(c, STACK.head, front);
    ItemKept(c, ByNumber, STACK.head, front, x.data);
  }

  /** What Writer.Item writes. */
  function WriteStack(c: Settings, x: ItemStack): Encoded
    requires x.Valid()
  {
    StackFits(c, x);
    Enc(c, STACK, x.ToVal())
  }

  /**
   * Item round trip, for every item stack, whatever follows. The reader gets the stack back with its compound in normal
   * form, without the tick unless it is a shield, and without user data where the network ID is zero; unless a list is
   * above the limit or the NBT decoder refuses the compound, and then it fails.
   */
  lemma StackRoundTrip(c: Settings, x: ItemStack, t: Bytes, i: In)
    requires x.Valid() && Input(WriteStack(c, x), t, i)
    ensures var read := x.(data := if x.id == 0 then NO_DATA else x.data.Read(x.id == c.shield));
      if x.id == 0 || x.data.Within(c) then Back(ReadStack(c, i), None, read, t, i) else ReadStack(c, i).Bad?
  {
    hide Canon, Within, Lossless, Fits, Enc, Dec, Grounded;
    StackFits(c, x);
    StackHead(c, x);
    ItemGrounded(ByNumber, STACK.head);
    GroundedRoundTrip(c, STACK, x.ToVal(), t, i);
    var u := if x.id == 0 then NO_DATA else x.data.Read(x.id == c.shield);
    DataBack(x.ToVal().front, u);
    assert StackIn(x.(data := u).ToVal()) == x.(data := u);
  }

  // ------------------------------------------------------------ with a stack ID

  function Narrow(id: int): int { I16.Of(id) }

  lemma NarrowIsKept(id: int)
    ensures I32.Of(Narrow(id)) == Narrow(id) && (I16.Has(id) ==> Narrow(id) == id) && (id == 0 ==> Narrow(id) == 0)
  {
    Pow2Values();
    OfHas(I16, id);
    OfHas(I32, Narrow(id));
    assert Pow2(15) == 0x8000;
  }

  lemma StackIdGood(c: Settings, id: int)
    requires I32.Has(id)
    ensures Good(c, Unless(Boolean, Integer(0), Plain(VARINT32)), Integer(id))
  {
    NumGood(c, VARINT32, I32, id);
  }

  lemma InstanceTail(c: Settings, x: ItemInstance)
    requires x.Valid()
    ensures Good(c, INSTANCE.head.second, x.ToVal().front.b)
  {
    hide Good;
    var id := Unless(Boolean, Integer(0), Plain(VARINT32));
    StackIdGood(c, x.stackId);
    NumGood(c, VARUINT32, I32, x.stack.block);
    PairGood(c, id, Num(VARUINT32, I32), Integer(x.stackId), Integer(x.stack.block));
    NumGood(c, VARUINT32, U32, x.stack.meta);
    PairGood(c, Plain(VARUINT32), INSTANCE.head.second.second.second, Integer(x.stack.meta), x.ToVal().front.b.b.b);
    NumGood(c, Fixed(Two, false), U16, x.stack.count);
    PairGood(c, COUNT, INSTANCE.head.second.second, Integer(x.stack.count), x.ToVal().front.b.b);
  }

  /** The instance as it is read back: the network ID cut to 16 bits, and the user data as of a stack. */
  function InstanceRead(c: Settings, x: ItemInstance): ItemInstance
  {
    var id := x.stack.id;
    x.(stack := x.stack.(id := Narrow(id),
                         data := if id == 0 then NO_DATA
                                 else x.stack.data.Read(id == c.shield && Narrow(id) == c.shield)))
  }

  /** Besides what a stack has to keep to: an ID that only its low 16 bits make a shield's leaves the reader without a tick. */
  predicate InstanceWithin(c: Settings, x: ItemInstance)
  {
    var id := x.stack.id;
    id == 0 || (x.stack.data.Within(c) && (Narrow(id) == c.shield ==> id == c.shield))
  }

  lemma InstanceHead(c: Settings, x: ItemInstance)
    requires x.Valid()
    ensures var front := x.ToVal().front;
      && Fits(INSTANCE.head, front) && Grounded(INSTANCE.head) && Within(c, INSTANCE.head, front)
      && Canon(c, INSTANCE.head, front) == Both(Integer(Narrow(x.stack.id)), front.b)
  {
    InstanceTail(c, x);
    LosslessIsKept(c, INSTANCE.head.second, x.ToVal().front.b);
    NarrowIsKept(x.stack.id);
  }

  /** Whether an instance is there, and a shield, before and after its ID is cut. */
  lemma InstanceShield(c: Settings, x: ItemInstance, front: Val, read: Val)
    requires front == x.ToVal().front && read == Both(Integer(Narrow(x.stack.id)), front.b)
    ensures Present(ByNumber, front) <==> x.stack.id != 0
    ensures InstanceWithin(c, x) <==>
      (Present(ByNumber, front) ==> x.stack.data.Within(c) && ShieldMistaken(c, ByNumber, read, front) == None)
    ensures InstanceRead(c, x).ToVal() ==
      Stacked(read, if !Present(ByNumber, front) then NO_DATA
                    else x.stack.data.Read(c.Shielded(ByNumber, front) && c.Shielded(ByNumber, read)))
  {
    hide Narrow, UserData.Within, UserData.Read;
  }

  lemma InstanceFits(c: Settings, x: ItemInstance)
    requires x.Valid()
    ensures Fits(INSTANCE, x.ToVal()) && Canon(c, INSTANCE, x.ToVal()) == InstanceRead(c, x).ToVal()
    ensures Within(c, INSTANCE, x.ToVal()) <==> InstanceWithin(c, x)
  {
    hide Canon, Within, Fits, InstanceWithin, InstanceRead;
    InstanceHead(c, x);
    var front, read := x.ToVal().front, Canon(c, INSTANCE.head, x.ToVal().front);
    InstanceShield(c, x, front, read);
    ItemKept(c, ByNumber, INSTANCE.head, front, x.stack.data);
  }

  /** What Writer.ItemInstance writes. */
  function WriteInstance(c: Settings, x: ItemInstance): Encoded
    requires x.Valid()
  {
    InstanceFits(c, x);
    Enc(c, INSTANCE, x.ToVal())
  }

  /** Item instance round trip. A network ID within 16 bits comes back as it is. */
  lemma InstanceRoundTrip(c: Settings, x: ItemInstance, t: Bytes, i: In)
    requires x.Valid() && Input(WriteInstance(c, x), t, i)
    ensures if InstanceWithin(c, x) then Back(ReadInstance(c, i), None, InstanceRead(c, x), t, i)
            else ReadInstance(c, i).Bad?
    ensures I16.Has(x.stack.id) ==> InstanceRead(c, x).stack.id == x.stack.id
  {
    hide Canon, Within, Fits, Enc, Dec, Grounded;
    InstanceFits(c, x);
    InstanceHead(c, x);
    NarrowIsKept(x.stack.id);
    ItemGrounded(ByNumber, INSTANCE.head);
    GroundedRoundTrip(c, INSTANCE, x.ToVal(), t, i);
    var read := InstanceRead(c, x);
    DataBack(read.ToVal().front, read.stack.data);
    assert InstanceIn(read.ToVal()) == read;
  }

  // -------------------------------------------------------------- by identifier

  /** The item as it is read back: without an identifier, nothing but the count and the block is sent. */
  function RequestItemRead(x: StackRequestItem): StackRequestItem
  {
    if x.name == [] then x.(meta := 0, data := NO_DATA)
    else x.(data := x.data.Read(x.name == SHIELD))
  }

  lemma NameKept(c: Settings, name: Bytes, meta: int)
    requires U32.Has(meta)
    ensures var s, v := REQUEST_ITEM.head.first, Both(Str(name), Integer(meta));
      && Fits(s, v) && Grounded(s) && Within(c, s, v)
      && Canon(c, s, v) == if name == [] then NO_ITEM else v
  {
    hide Good;
    var e, v := Pair(Txt, Num(VARINT32, U32)), Both(Str(name), Integer(meta));
    NumGood(c, VARINT32, U32, meta);
    TextGood(c, name);
    PairGood(c, Txt, Num(VARINT32, U32), Str(name), Integer(meta));
    NamedKept(c, e, v);
  }

  lemma TextGood(c: Settings, s: Bytes)
    ensures Good(c, Txt, Str(s))
  {
  }

  lemma NamedKept(c: Settings, e: Shape, v: Val)
    requires v.Both? && Good(c, e, v)
    ensures var s := Unless(Loose, NO_ITEM, e);
      && Fits(s, v) && Grounded(s) && Within(c, s, v)
      && Canon(c, s, v) == if v.a == Str([]) then NO_ITEM else v
  {
    LosslessIsKept(c, e, v);
  }

  lemma CountKept(c: Settings, count: int, block: int)
    requires U16.Has(count) && I32.Has(block)
    ensures var s, v := REQUEST_ITEM.head.second, Both(Integer(count), Integer(block));
      Fits(s, v) && Grounded(s) && Within(c, s, v) && Canon(c, s, v) == v
  {
    hide Good, Canon, Within, Fits, Grounded, Lossless;
    NumGood(c, Fixed(Two, true), U16, count);
    NumGood(c, VARUINT32, I32, block);
    PairGood(c, Num(Fixed(Two, true), U16), Num(VARUINT32, I32), Integer(count), Integer(block));
    GoodIsKept(c, REQUEST_ITEM.head.second, Both(Integer(count), Integer(block)));
  }

  lemma GoodIsKept(c: Settings, s: Shape, v: Val)
    requires Good(c, s, v)
    ensures Fits(s, v) && Grounded(s) && Within(c, s, v) && Canon(c, s, v) == v
  {
    LosslessIsKept(c, s, v);
  }

  lemma RequestItemHead(c: Settings, x: StackRequestItem)
    requires x.Valid()
    ensures var front := x.ToVal().front;
      && Fits(REQUEST_ITEM.head, front) && Grounded(REQUEST_ITEM.head) && Within(c, REQUEST_ITEM.head, front)
      && Canon(c, REQUEST_ITEM.head, front) == Both(if x.name == [] then NO_ITEM else front.a, front.b)
  {
    hide UserData.Valid, Good, Canon, Within, Fits, Grounded;
    NameKept(c, x.name, x.meta);
    CountKept(c, x.count, x.block);
    PairKept(c, REQUEST_ITEM.head.first, REQUEST_ITEM.head.second, x.ToVal().front.a, x.ToVal().front.b);
  }

  lemma PairKept(c: Settings, a: Shape, b: Shape, x: Val, y: Val)
    requires Fits(a, x) && Grounded(a) && Within(c, a, x) && Fits(b, y) && Grounded(b) && Within(c, b, y)
    ensures var s, v := Pair(a, b), Both(x, y);
      Fits(s, v) && Grounded(s) && Within(c, s, v) && Canon(c, s, v) == Both(Canon(c, a, x), Canon(c, b, y))
  {
  }

  lemma RequestItemFits(c: Settings, x: StackRequestItem)
    requires x.Valid()
    ensures Fits(REQUEST_ITEM, x.ToVal()) && Canon(c, REQUEST_ITEM, x.ToVal()) == RequestItemRead(x).ToVal()
    ensures Within(c, REQUEST_ITEM, x.ToVal()) <==> (x.name != [] ==> x.data.Within(c))
  {
    hide Canon, Within, Fits, UserData.Read, UserData.Within;
    RequestItemHead(c, x);
    var front := x.ToVal().front;
    assert (Present(ByName, front) <==> x.name != []) && (c.Shielded(ByName, front) <==> x.name == SHIELD);
    assert ShieldMistaken(c, ByName, Canon(c, REQUEST_ITEM.head, front), front) == None;
    ItemKept(c, ByName, REQUEST_ITEM.head, front, x.data);
  }

  /** What Writer.StackRequestItem writes. */
  function WriteRequestItem(c: Settings, x: StackRequestItem): Encoded
    requires x.Valid()
  {
    RequestItemFits(c, x);
    Enc(c, REQUEST_ITEM, x.ToVal())
  }

  /** Stack request item round trip. */
  lemma RequestItemRoundTrip(c: Settings, x: StackRequestItem, t: Bytes, i: In)
    requires x.Valid() && Input(WriteRequestItem(c, x), t, i)
    ensures if x.name == [] || x.data.Within(c) then Back(ReadRequestItem(c, i), None, RequestItemRead(x), t, i)
            else ReadRequestItem(c, i).Bad?
  {
    hide Canon, Within, Fits, Enc, Dec, Grounded;
    RequestItemFits(c, x);
    RequestItemHead(c, x);
    ItemGrounded(ByName, REQUEST_ITEM.head);
    GroundedRoundTrip(c, REQUEST_ITEM, x.ToVal(), t, i);
    var read := RequestItemRead(x);
    DataBack(read.ToVal().front, read.data);
    assert RequestItemIn(read.ToVal()) == read;
  }
}
