/** Stack requests as Go has them, and as bytes: every action with its variant, its ID and its fields. */
module Actions {
  import opened Wire
  import opened Varints
  import opened WordBytes
  import opened Fields
  import opened Shapes
  import opened ShapeReading
  import opened ShapeRoundTrip
  import opened ShapeLimits
  import opened Items
  import opened ItemLayout
  import opened Layouts
  import opened Requests

  // -------------------------------------------------------------------- slots

  /** StackRequestSlotInfo, with its FullContainerName. */
  datatype Slot = Slot(container: byte, dynamic: Option<u32>, slot: byte, stackId: i32) {
    function ToVal(): Val
    {
      Both(Both(Integer(container), if dynamic.Some? then Case(1, Integer(dynamic.value)) else Case(0, Unit)),
           Both(Integer(slot), Integer(stackId)))
    }
    function Bytes(): Bytes
    {
      ([container] + if dynamic.Some? then [1] + LowBytes(4, dynamic.value) else [0]) + ([slot] + LowBytes(4, stackId))
    }
  }

  lemma Int32Sends(c: Settings, x: i32)
    ensures Sends(c, INT32, Integer(x), Sending(LowBytes(4, x), Integer(x), true))
  {
    Ranges(0, 0, x, 0);
    SameFixedSends(c, Four, true, I32, x);
  }

  lemma OptionalSends(c: Settings, x: Option<u32>)
    ensures Sends(c, Optional(Plain(Fixed(Four, false))), if x.Some? then Case(1, Integer(x.value)) else Case(0, Unit),
      Sending(if x.Some? then [1] + LowBytes(4, x.value) else [0],
              if x.Some? then Case(1, Integer(x.value)) else Case(0, Unit), true))
  {
    hide Sends;
    var number := Plain(Fixed(Four, false));
    if x.Some? {
      Ranges(0, 0, 0, x.value);
      SameFixedSends(c, Four, false, U32, x.value);
      CaseSends(c, Boolean, [Nothing, number], 1, Integer(x.value), Sending(LowBytes(4, x.value), Integer(x.value), true));
    } else {
      NothingSends(c);
      CaseSends(c, Boolean, [Nothing, number], 0, Unit, Sending([], Unit, true));
      assert [0] + [] == [0];
    }
  }

  lemma SlotSends(c: Settings, s: Slot)
    ensures Sends(c, SLOT, s.ToVal(), Sending(s.Bytes(), s.ToVal(), true))
  {
    hide Sends;
    ByteSends(c, s.container);
    OptionalSends(c, s.dynamic);
    ByteSends(c, s.slot);
    Int32Sends(c, s.stackId);
    var dynamic := if s.dynamic.Some? then [1] + LowBytes(4, s.dynamic.value) else [0];
    PairSends(c, BYTE, CONTAINER.second, Integer(s.container), s.ToVal().a.b,
              Sending([s.container], Integer(s.container), true), Sending(dynamic, s.ToVal().a.b, true));
    PairSends(c, BYTE, INT32, Integer(s.slot), Integer(s.stackId),
              Sending([s.slot], Integer(s.slot), true), Sending(LowBytes(4, s.stackId), Integer(s.stackId), true));
    PairSends(c, CONTAINER, SLOT.second, s.ToVal().a, s.ToVal().b,
              Sending([s.container] + dynamic, s.ToVal().a, true),
              Sending([s.slot] + LowBytes(4, s.stackId), s.ToVal().b, true));
  }

  // -------------------------------------------------------------- item descriptors

  datatype Descriptor =
    | Invalid
    | Default(name: Bytes, meta: i32)
    | MoLang(expression: Bytes, version: i16)
    | ItemTag(tag: Bytes)
  {
    function ToVal(): Val
    {
      match this
      case Invalid => Case(0, Unit)
      case Default(name, meta) => Case(1, Both(Str(name), Integer(meta)))
      case MoLang(expression, version) => Case(2, Both(Str(expression), Integer(version)))
      case ItemTag(tag) => Case(3, Str(tag))
    }
    /** The type twice, then the fields. */
    function Bytes(): Bytes
    {
      match this
      case Invalid => [0, 0]
      case Default(name, meta) => [1, 1] + ((Varuint(|name|) + name) + Varint(meta))
      case MoLang(expression, version) => [2, 2] + ((Varuint(|expression|) + expression) + LowBytes(2, version))
      case ItemTag(tag) => [3, 3] + (Varuint(|tag|) + tag)
    }
  }

  lemma LooseTag(k: nat)
    requires k < 4
    ensures TagBytes(Loose, k) == [k, k]
  {
    assert [k] + [k] == [k, k];
  }

  lemma DescriptorSends(c: Settings, d: Descriptor)
    ensures Sends(c, DESCRIPTOR, d.ToVal(), Sending(d.Bytes(), d.ToVal(), true))
  {
    hide Sends;
    match d
    case Invalid =>
      NothingSends(c);
      CaseSends(c, Loose, DESCRIPTOR.cases, 0, Unit, Sending([], Unit, true));
      LooseTag(0);
      assert [0, 0] + [] == [0, 0];
    case Default(name, meta) =>
      TextSends(c, name);
      SignedSends(c, meta);
      PairSends(c, Txt, VAR, Str(name), Integer(meta),
                Sending(Varuint(|name|) + name, Str(name), true), Sending(Varint(meta), Integer(meta), true));
      CaseSends(c, Loose, DESCRIPTOR.cases, 1, d.ToVal().v,
                Sending((Varuint(|name|) + name) + Varint(meta), d.ToVal().v, true));
      LooseTag(1);
    case MoLang(expression, version) =>
      TextSends(c, expression);
      Ranges(0, version, 0, 0);
      SameFixedSends(c, Two, true, I16, version);
      PairSends(c, Txt, Plain(Fixed(Two, true)), Str(expression), Integer(version),
                Sending(Varuint(|expression|) + expression, Str(expression), true),
                Sending(LowBytes(2, version), Integer(version), true));
      CaseSends(c, Loose, DESCRIPTOR.cases, 2, d.ToVal().v,
                Sending((Varuint(|expression|) + expression) + LowBytes(2, version), d.ToVal().v, true));
      LooseTag(2);
    case ItemTag(tag) =>
      TextSends(c, tag);
      CaseSends(c, Loose, DESCRIPTOR.cases, 3, Str(tag), Sending(Varuint(|tag|) + tag, Str(tag), true));
      LooseTag(3);
  }

  /** ItemDescriptorCount: the count goes out in two bytes, and comes back as they are without a sign. */
  datatype Ingredient = Ingredient(descriptor: Descriptor, count: i32) {
    function ToVal(): Val { Both(descriptor.ToVal(), Integer(count)) }
    function Bytes(): Bytes { descriptor.Bytes() + LowBytes(2, count) }
    function Read(): Ingredient { Ingredient(descriptor, count % 0x1_0000) }
    function Sent(): Sending { Sending(Bytes(), Read().ToVal(), true) }
  }

  lemma IngredientSends(c: Settings, x: Ingredient)
    ensures Sends(c, INGREDIENT, x.ToVal(), x.Sent())
  {
    hide Sends;
    DescriptorSends(c, x.descriptor);
    Ranges(0, 0, x.count, 0);
    FixedSends(c, Two, false, I32, x.count);
    CountBack(x.count);
    PairSends(c, DESCRIPTOR, Num(Fixed(Two, false), I32), x.descriptor.ToVal(), Integer(x.count),
              Sending(x.descriptor.Bytes(), x.descriptor.ToVal(), true),
              Sending(LowBytes(2, x.count), Integer(x.count % 0x1_0000), true));
  }

  lemma CountBack(n: i32)
    ensures I32.Of(Fixed(Two, false).Type().Of(n)) == n % 0x1_0000
  {
    Pow2Values();
    hide Pow2;
    Ranges(0, 0, n % 0x1_0000, 0);
    OfHas(I32, n % 0x1_0000);
  }

  // ------------------------------------------------------------------ result items

  function RequestItemBytes(x: StackRequestItem): Bytes
    requires x.Valid()
  {
    RequestItemHeadBytes(x) + Tail(x.data, x.name != [], x.name == Ascii("minecraft:shield"))
  }

  predicate ItemWritable(x: StackRequestItem) { x.name == [] || Writable(x.data) }

  function ItemSent(c: Settings, x: StackRequestItem): Sending
    requires x.Valid()
  {
    Sending(RequestItemBytes(x), RequestItemRead(x).ToVal(), x.name == [] || x.data.Within(c))
  }

  lemma RequestItemSends(c: Settings, x: StackRequestItem)
    requires x.Valid() && ItemWritable(x)
    ensures Sends(c, REQUEST_ITEM, x.ToVal(), ItemSent(c, x))
  {
    hide Enc, Canon, Within, Fits, RequestItemHeadBytes, Tail, Ascii, UserData.Valid, UserData.Within;
    RequestItemLayout(c, x);
    RequestItemFits(c, x);
  }

  // --------------------------------------------------------------------- actions

  datatype Action =
    | Take(count: byte, source: Slot, destination: Slot)
    | Place(count: byte, source: Slot, destination: Slot)
    | Swap(source: Slot, destination: Slot)
    | Drop(count: byte, source: Slot, randomly: bool)
    | Destroy(count: byte, source: Slot)
    | Consume(count: byte, source: Slot)
    | Create(resultsSlot: byte)
    | LabTableCombine
    | BeaconPayment(primaryEffect: i32, secondaryEffect: i32)
    | MineBlock(hotbarSlot: i32, predictedDurability: i32, stackId: i32)
    | CraftRecipe(recipe: u32, crafts: byte)
    | AutoCraftRecipe(recipe: u32, crafts: byte, ingredients: seq<Ingredient>)
    | CraftCreative(creativeItem: u32, crafts: byte)
    | CraftRecipeOptional(recipe: u32, filterString: i32)
    | CraftGrindstone(recipe: u32, crafts: byte, cost: i32)
    | CraftLoom(pattern: Bytes, crafts: byte)
    | CraftReserved(reserved: Bytes, crafts: byte)
    | CraftNonImplemented
    | CraftResults(items: seq<StackRequestItem>, crafts: byte)
  {
    predicate Valid()
    {
      && (AutoCraftRecipe? ==> |ingredients| < 0x1_0000_0000)
      && (CraftResults? ==> |items| < 0x1_0000_0000 && forall i | 0 <= i < |items| :: items[i].Valid())
    }
    /** The compounds of its items are within the encoder's limits. */
    predicate Writable() { CraftResults? ==> forall i | 0 <= i < |items| :: ItemWritable(items[i]) }
  }

  function IngredientVals(xs: seq<Ingredient>): seq<Val> { seq(|xs|, i requires 0 <= i < |xs| => xs[i].ToVal()) }

  function IngredientsSent(xs: seq<Ingredient>): seq<Sending> { seq(|xs|, i requires 0 <= i < |xs| => xs[i].Sent()) }

  function ItemVals(xs: seq<StackRequestItem>): seq<Val> { seq(|xs|, i requires 0 <= i < |xs| => xs[i].ToVal()) }

  function ItemsSent(c: Settings, xs: seq<StackRequestItem>): seq<Sending>
    requires forall i | 0 <= i < |xs| :: xs[i].Valid()
  {
    seq(|xs|, i requires 0 <= i < |xs| => ItemSent(c, xs[i]))
  }

  /** What stands behind the variant and the ID: the fields in order. */
  function Body(c: Settings, a: Action): Bytes
    requires a.Valid()
  {
    match a
    case Take(count, source, destination) => [count] + (source.Bytes() + destination.Bytes())
    case Place(count, source, destination) => [count] + (source.Bytes() + destination.Bytes())
    case Swap(source, destination) => source.Bytes() + destination.Bytes()
    case Drop(count, source, randomly) => [count] + (source.Bytes() + [if randomly then 1 else 0])
    case Destroy(count, source) => [count] + source.Bytes()
    case Consume(count, source) => [count] + source.Bytes()
    case Create(resultsSlot) => [resultsSlot]
    case LabTableCombine => []
    case BeaconPayment(primary, secondary) => Varint(primary) + Varint(secondary)
    case MineBlock(slot, durability, stackId) => Varint(slot) + (Varint(durability) + LowBytes(4, stackId))
    case CraftRecipe(recipe, crafts) => Varuint(recipe) + [crafts]
    case AutoCraftRecipe(recipe, crafts, ingredients) =>
      Varuint(recipe) + ([crafts] + (Varuint(|ingredients|) + Joined(IngredientsSent(ingredients))))
    case CraftCreative(item, crafts) => Varuint(item) + [crafts]
    case CraftRecipeOptional(recipe, filterString) => Varuint(recipe) + LowBytes(4, filterString)
    case CraftGrindstone(recipe, crafts, cost) => LowBytes(4, recipe) + ([crafts] + Varint(cost))
    case CraftLoom(pattern, crafts) => (Varuint(|pattern|) + pattern) + [crafts]
    case CraftReserved(reserved, crafts) => (Varuint(|reserved|) + reserved) + [crafts]
    case CraftNonImplemented => []
    case CraftResults(items, crafts) => (Varuint(|items|) + Joined(ItemsSent(c, items))) + [crafts]
  }

  /** The variant, and the ID of the action in the protocol. */
  function Variant(a: Action): (byte, byte)
  {
    match a
    case Take(_, _, _) => (0, 0)
    case Place(_, _, _) => (1, 1)
    case Swap(_, _) => (2, 2)
    case Drop(_, _, _) => (3, 3)
    case Destroy(_, _) => (4, 4)
    case Consume(_, _) => (5, 5)
    case Create(_) => (6, 6)
    case LabTableCombine => (7, 9)
    case BeaconPayment(_, _) => (8, 10)
    case MineBlock(_, _, _) => (9, 11)
    case CraftRecipe(_, _) => (10, 12)
    case AutoCraftRecipe(_, _, _) => (11, 13)
    case CraftCreative(_, _) => (12, 14)
    case CraftRecipeOptional(_, _) => (13, 15)
    case CraftGrindstone(_, _, _) => (14, 16)
    case CraftLoom(_, _) => (15, 17)
    case CraftReserved(_, _) => (16, 18)
    case CraftNonImplemented => (17, 19)
    case CraftResults(_, _) => (18, 20)
  }

  function ActionBytes(c: Settings, a: Action): Bytes
    requires a.Valid()
  {
    [Variant(a).0, Variant(a).1] + Body(c, a)
  }

  // ------------------------------------------------------- actions as values of shapes

  function BodyVal(a: Action): Val
  {
    match a
    case Take(count, source, destination) => Both(Integer(count), Both(source.ToVal(), destination.ToVal()))
    case Place(count, source, destination) => Both(Integer(count), Both(source.ToVal(), destination.ToVal()))
    case Swap(source, destination) => Both(source.ToVal(), destination.ToVal())
    case Drop(count, source, randomly) =>
      Both(Integer(count), Both(source.ToVal(), Case(if randomly then 1 else 0, Unit)))
    case Destroy(count, source) => Both(Integer(count), source.ToVal())
    case Consume(count, source) => Both(Integer(count), source.ToVal())
    case Create(resultsSlot) => Integer(resultsSlot)
    case LabTableCombine => Unit
    case BeaconPayment(primary, secondary) => Both(Integer(primary), Integer(secondary))
    case MineBlock(slot, durability, stackId) => Both(Integer(slot), Both(Integer(durability), Integer(stackId)))
    case CraftRecipe(recipe, crafts) => Both(Integer(recipe), Integer(crafts))
    case AutoCraftRecipe(recipe, crafts, ingredients) =>
      Both(Integer(recipe), Both(Integer(crafts), Many(IngredientVals(ingredients))))
    case CraftCreative(item, crafts) => Both(Integer(item), Integer(crafts))
    case CraftRecipeOptional(recipe, filterString) => Both(Integer(recipe), Integer(filterString))
    case CraftGrindstone(recipe, crafts, cost) => Both(Integer(recipe), Both(Integer(crafts), Integer(cost)))
    case CraftLoom(pattern, crafts) => Both(Str(pattern), Integer(crafts))
    case CraftReserved(reserved, crafts) => Both(Str(reserved), Integer(crafts))
    case CraftNonImplemented => Unit
    case CraftResults(items, crafts) => Both(Many(ItemVals(items)), Integer(crafts))
  }

  function ActionVal(a: Action): Val { Case(Variant(a).0, BodyVal(a)) }

  /** The action as it is read back: the counts of ingredients cut to two bytes, and items as a reader gets them. */
  function ActionRead(a: Action): Action
  {
    match a
    case AutoCraftRecipe(_, _, ingredients) =>
      a.(ingredients := seq(|ingredients|, i requires 0 <= i < |ingredients| => ingredients[i].Read()))
    case CraftResults(items, _) => a.(items := seq(|items|, i requires 0 <= i < |items| => RequestItemRead(items[i])))
    case _ => a
  }

  /** What a reader's limits ask of an action: 1024 ingredients or items, and compounds the NBT decoder gets through. */
  predicate ActionWithin(c: Settings, a: Action)
  {
    && (a.AutoCraftRecipe? && c.limits ==> |a.ingredients| <= 1024)
    && (a.CraftResults? ==>
          && (c.limits ==> |a.items| <= 1024)
          && forall i | 0 <= i < |a.items| :: a.items[i].name == [] || a.items[i].data.Within(c))
  }

  function Sent(c: Settings, a: Action): Sending
    requires a.Valid()
  {
    Sending(Body(c, a), BodyVal(ActionRead(a)), ActionWithin(c, a))
  }

  lemma TransferSends(c: Settings, count: byte, source: Slot, destination: Slot)
    ensures Sends(c, Pair(SLOT, SLOT), Both(source.ToVal(), destination.ToVal()),
                  Sending(source.Bytes() + destination.Bytes(), Both(source.ToVal(), destination.ToVal()), true))
    ensures Sends(c, TRANSFER, Both(Integer(count), Both(source.ToVal(), destination.ToVal())),
                  Sending([count] + (source.Bytes() + destination.Bytes()),
                          Both(Integer(count), Both(source.ToVal(), destination.ToVal())), true))
  {
    hide Sends;
    ByteSends(c, count);
    SlotSends(c, source);
    SlotSends(c, destination);
    PairSends(c, SLOT, SLOT, source.ToVal(), destination.ToVal(),
              Sending(source.Bytes(), source.ToVal(), true), Sending(destination.Bytes(), destination.ToVal(), true));
    PairSends(c, BYTE, Pair(SLOT, SLOT), Integer(count), Both(source.ToVal(), destination.ToVal()),
              Sending([count], Integer(count), true),
              Sending(source.Bytes() + destination.Bytes(), Both(source.ToVal(), destination.ToVal()), true));
  }

  lemma DropSends(c: Settings, count: byte, source: Slot, randomly: bool)
    ensures var flag := Case(if randomly then 1 else 0, Unit);
      Sends(c, DROP, Both(Integer(count), Both(source.ToVal(), flag)),
            Sending([count] + (source.Bytes() + [if randomly then 1 else 0]),
                    Both(Integer(count), Both(source.ToVal(), flag)), true))
  {
    hide Sends;
    var flag := Case(if randomly then 1 else 0, Unit);
    ByteSends(c, count);
    SlotSends(c, source);
    BoolSends(c, randomly);
    PairSends(c, SLOT, FLAG, source.ToVal(), flag,
              Sending(source.Bytes(), source.ToVal(), true), Sending([if randomly then 1 else 0], flag, true));
    PairSends(c, BYTE, DROP.second, Integer(count), Both(source.ToVal(), flag), Sending([count], Integer(count), true),
              Sending(source.Bytes() + [if randomly then 1 else 0], Both(source.ToVal(), flag), true));
  }

  lemma DestroySends(c: Settings, count: byte, source: Slot)
    ensures Sends(c, DESTROY, Both(Integer(count), source.ToVal()),
                  Sending([count] + source.Bytes(), Both(Integer(count), source.ToVal()), true))
  {
    hide Sends;
    ByteSends(c, count);
    SlotSends(c, source);
    PairSends(c, BYTE, SLOT, Integer(count), source.ToVal(),
              Sending([count], Integer(count), true), Sending(source.Bytes(), source.ToVal(), true));
  }

  lemma BeaconSends(c: Settings, primary: i32, secondary: i32)
    ensures Sends(c, BEACON, Both(Integer(primary), Integer(secondary)),
                  Sending(Varint(primary) + Varint(secondary), Both(Integer(primary), Integer(secondary)), true))
  {
    hide Sends;
    SignedSends(c, primary);
    SignedSends(c, secondary);
    PairSends(c, VAR, VAR, Integer(primary), Integer(secondary),
              Sending(Varint(primary), Integer(primary), true), Sending(Varint(secondary), Integer(secondary), true));
  }

  lemma MineSends(c: Settings, slot: i32, durability: i32, stackId: i32)
    ensures Sends(c, MINE, Both(Integer(slot), Both(Integer(durability), Integer(stackId))),
                  Sending(Varint(slot) + (Varint(durability) + LowBytes(4, stackId)),
                          Both(Integer(slot), Both(Integer(durability), Integer(stackId))), true))
  {
    hide Sends;
    SignedSends(c, slot);
    SignedSends(c, durability);
    Int32Sends(c, stackId);
    PairSends(c, VAR, INT32, Integer(durability), Integer(stackId),
              Sending(Varint(durability), Integer(durability), true), Sending(LowBytes(4, stackId), Integer(stackId), true));
    PairSends(c, VAR, MINE.second, Integer(slot), Both(Integer(durability), Integer(stackId)),
              Sending(Varint(slot), Integer(slot), true),
              Sending(Varint(durability) + LowBytes(4, stackId), Both(Integer(durability), Integer(stackId)), true));
  }

  lemma CraftSends(c: Settings, recipe: u32, crafts: byte)
    ensures Sends(c, CRAFT, Both(Integer(recipe), Integer(crafts)),
                  Sending(Varuint(recipe) + [crafts], Both(Integer(recipe), Integer(crafts)), true))
  {
    hide Sends;
    UnsignedSends(c, recipe);
    ByteSends(c, crafts);
    PairSends(c, UVAR, BYTE, Integer(recipe), Integer(crafts),
              Sending(Varuint(recipe), Integer(recipe), true), Sending([crafts], Integer(crafts), true));
  }

  lemma OptionalCraftSends(c: Settings, recipe: u32, filterString: i32)
    ensures Sends(c, OPTIONAL_CRAFT, Both(Integer(recipe), Integer(filterString)),
                  Sending(Varuint(recipe) + LowBytes(4, filterString), Both(Integer(recipe), Integer(filterString)), true))
  {
    hide Sends;
    UnsignedSends(c, recipe);
    Int32Sends(c, filterString);
    PairSends(c, UVAR, INT32, Integer(recipe), Integer(filterString),
              Sending(Varuint(recipe), Integer(recipe), true), Sending(LowBytes(4, filterString), Integer(filterString), true));
  }

  lemma GrindstoneSends(c: Settings, recipe: u32, crafts: byte, cost: i32)
    ensures Sends(c, GRINDSTONE, Both(Integer(recipe), Both(Integer(crafts), Integer(cost))),
                  Sending(LowBytes(4, recipe) + ([crafts] + Varint(cost)),
                          Both(Integer(recipe), Both(Integer(crafts), Integer(cost))), true))
  {
    hide Sends;
    Ranges(0, 0, 0, recipe);
    SameFixedSends(c, Four, true, U32, recipe);
    ByteSends(c, crafts);
    SignedSends(c, cost);
    PairSends(c, BYTE, VAR, Integer(crafts), Integer(cost),
              Sending([crafts], Integer(crafts), true), Sending(Varint(cost), Integer(cost), true));
    PairSends(c, Num(Fixed(Four, true), U32), GRINDSTONE.second, Integer(recipe), Both(Integer(crafts), Integer(cost)),
              Sending(LowBytes(4, recipe), Integer(recipe), true),
              Sending([crafts] + Varint(cost), Both(Integer(crafts), Integer(cost)), true));
  }

  lemma NamedSends(c: Settings, name: Bytes, crafts: byte)
    ensures Sends(c, NAMED, Both(Str(name), Integer(crafts)),
                  Sending((Varuint(|name|) + name) + [crafts], Both(Str(name), Integer(crafts)), true))
  {
    hide Sends;
    TextSends(c, name);
    ByteSends(c, crafts);
    PairSends(c, Txt, BYTE, Str(name), Integer(crafts),
              Sending(Varuint(|name|) + name, Str(name), true), Sending([crafts], Integer(crafts), true));
  }

  lemma {:induction false} BacksAt(zs: seq<Sending>, i: nat)
    requires i < |zs|
    ensures Backs(zs)[i] == zs[i].back
  {
    if i > 0 { BacksAt(zs[1..], i - 1); }
  }

  lemma IngredientsBack(xs: seq<Ingredient>)
    ensures var ys := seq(|xs|, i requires 0 <= i < |xs| => xs[i].Read());
      Backs(IngredientsSent(xs)) == IngredientVals(ys)
  {
    forall i | 0 <= i < |xs| ensures Backs(IngredientsSent(xs))[i] == xs[i].Read().ToVal() {
      BacksAt(IngredientsSent(xs), i);
    }
  }

  lemma ItemsBack(c: Settings, xs: seq<StackRequestItem>)
    requires forall i | 0 <= i < |xs| :: xs[i].Valid()
    ensures var ys := seq(|xs|, i requires 0 <= i < |xs| => RequestItemRead(xs[i]));
      Backs(ItemsSent(c, xs)) == ItemVals(ys)
  {
    hide RequestItemRead, StackRequestItem.ToVal, StackRequestItem.Valid;
    forall i | 0 <= i < |xs| ensures Backs(ItemsSent(c, xs))[i] == RequestItemRead(xs[i]).ToVal() {
      BacksAt(ItemsSent(c, xs), i);
    }
  }

  lemma AutoSends(c: Settings, a: Action)
    requires a.AutoCraftRecipe? && a.Valid()
    ensures Sends(c, AUTO, BodyVal(a), Sent(c, a))
  {
    hide Sends, IngredientVals, IngredientsSent, Joined, Backs;
    var vs, zs := IngredientVals(a.ingredients), IngredientsSent(a.ingredients);
    UnsignedSends(c, a.recipe);
    ByteSends(c, a.crafts);
    IngredientListSends(c, a.ingredients);
    IngredientsBack(a.ingredients);
    var ok := c.limits ==> |a.ingredients| <= 1024;
    PairSends(c, BYTE, Slice(VarCount, INGREDIENT), Integer(a.crafts), Many(vs), Sending([a.crafts], Integer(a.crafts), true),
              Sending(Varuint(|a.ingredients|) + Joined(zs), Many(Backs(zs)), ok));
    PairSends(c, UVAR, AUTO.second, Integer(a.recipe), Both(Integer(a.crafts), Many(vs)),
              Sending(Varuint(a.recipe), Integer(a.recipe), true),
              Sending([a.crafts] + (Varuint(|a.ingredients|) + Joined(zs)), Both(Integer(a.crafts), Many(Backs(zs))), ok));
  }

  lemma IngredientListSends(c: Settings, xs: seq<Ingredient>)
    requires |xs| < 0x1_0000_0000
    ensures Sends(c, Slice(VarCount, INGREDIENT), Many(IngredientVals(xs)),
                  Sending(Varuint(|xs|) + Joined(IngredientsSent(xs)), Many(Backs(IngredientsSent(xs))),
                          c.limits ==> |xs| <= 1024))
  {
    hide Sends, Joined, Backs;
    forall i | 0 <= i < |xs| ensures Sends(c, INGREDIENT, IngredientVals(xs)[i], IngredientsSent(xs)[i]) {
      IngredientSends(c, xs[i]);
    }
    ListSends(c, INGREDIENT, IngredientVals(xs), IngredientsSent(xs));
    assert forall i | 0 <= i < |xs| :: IngredientsSent(xs)[i].within;
  }

  lemma ItemListSends(c: Settings, xs: seq<StackRequestItem>)
    requires |xs| < 0x1_0000_0000 && forall i | 0 <= i < |xs| :: xs[i].Valid() && ItemWritable(xs[i])
    ensures Sends(c, Slice(VarCount, REQUEST_ITEM), Many(ItemVals(xs)),
                  Sending(Varuint(|xs|) + Joined(ItemsSent(c, xs)), Many(Backs(ItemsSent(c, xs))),
                          (c.limits ==> |xs| <= 1024) && forall i | 0 <= i < |xs| :: ItemSent(c, xs[i]).within))
  {
    hide Sends, Joined, Backs, ItemSent, StackRequestItem.Valid, ItemWritable;
    forall i | 0 <= i < |xs| ensures Sends(c, REQUEST_ITEM, ItemVals(xs)[i], ItemsSent(c, xs)[i]) {
      RequestItemSends(c, xs[i]);
    }
    ListSends(c, REQUEST_ITEM, ItemVals(xs), ItemsSent(c, xs));
    assert forall i | 0 <= i < |xs| :: ItemsSent(c, xs)[i].within == ItemSent(c, xs[i]).within;
  }

  lemma ResultsWithin(c: Settings, a: Action)
    requires a.CraftResults? && a.Valid()
    ensures ActionWithin(c, a) <==>
      (c.limits ==> |a.items| <= 1024) && forall i | 0 <= i < |a.items| :: ItemSent(c, a.items[i]).within
  {
    hide RequestItemBytes, RequestItemRead, StackRequestItem.ToVal, UserData.Within;
    assert forall i | 0 <= i < |a.items| ::
      ItemSent(c, a.items[i]).within <==> a.items[i].name == [] || a.items[i].data.Within(c);
  }

  lemma ResultsSends(c: Settings, a: Action)
    requires a.CraftResults? && a.Valid() && a.Writable()
    ensures Sends(c, RESULTS, BodyVal(a), Sent(c, a))
  {
    hide Sends, ItemVals, ItemsSent, ItemSent, ActionWithin, Joined, Backs, ItemWritable, RequestItemRead;
    hide StackRequestItem.Valid, StackRequestItem.ToVal;
    var vs, zs := ItemVals(a.items), ItemsSent(c, a.items);
    ItemListSends(c, a.items);
    ItemsBack(c, a.items);
    ByteSends(c, a.crafts);
    ResultsWithin(c, a);
    PairSends(c, RESULTS.first, BYTE, Many(vs), Integer(a.crafts),
              Sending(Varuint(|a.items|) + Joined(zs), Many(Backs(zs)), ActionWithin(c, a)),
              Sending([a.crafts], Integer(a.crafts), true));
  }

  predicate Moves(a: Action) { a.Take? || a.Place? || a.Swap? }

  lemma MoveSends(c: Settings, a: Action)
    requires a.Valid() && Moves(a)
    ensures Sends(c, ACTIONS[Variant(a).0], BodyVal(a), Sent(c, a))
  {
    hide Sends, Slot.ToVal, Slot.Bytes;
    match a
    case Take(count, source, destination) => TransferSends(c, count, source, destination);
    case Place(count, source, destination) => TransferSends(c, count, source, destination);
    case Swap(source, destination) => TransferSends(c, 0, source, destination);
    case _ =>
  }

  lemma ReleaseSends(c: Settings, a: Action)
    requires a.Valid() && Variant(a).0 < 7 && !Moves(a)
    ensures Sends(c, ACTIONS[Variant(a).0], BodyVal(a), Sent(c, a))
  {
    hide Sends, Slot.ToVal, Slot.Bytes;
    match a
    case Drop(count, source, randomly) => DropSends(c, count, source, randomly);
    case Destroy(count, source) => DestroySends(c, count, source);
    case Consume(count, source) => DestroySends(c, count, source);
    case Create(slot) => ByteSends(c, slot);
    case _ =>
  }

  predicate Crafts(a: Action) { a.CraftRecipe? || a.CraftCreative? || a.CraftRecipeOptional? || a.CraftGrindstone? }

  lemma CraftingSends(c: Settings, a: Action)
    requires Crafts(a)
    ensures Sends(c, ACTIONS[Variant(a).0], BodyVal(a), Sent(c, a))
  {
    hide Sends, ActionWithin, Varuint, Varint, LowBytes;
    OthersWithin(c, a);
    match a
    case CraftRecipe(recipe, crafts) => CraftSends(c, recipe, crafts);
    case CraftCreative(item, crafts) => CraftSends(c, item, crafts);
    case CraftRecipeOptional(recipe, filterString) => OptionalCraftSends(c, recipe, filterString);
    case CraftGrindstone(recipe, crafts, cost) => GrindstoneSends(c, recipe, crafts, cost);
    case _ =>
  }

  lemma LoomSends(c: Settings, a: Action)
    requires a.CraftLoom? || a.CraftReserved?
    ensures Sends(c, ACTIONS[Variant(a).0], BodyVal(a), Sent(c, a))
  {
    hide Sends, ActionWithin, Varuint, Varint, LowBytes;
    OthersWithin(c, a);
    match a
    case CraftLoom(pattern, crafts) => NamedSends(c, pattern, crafts);
    case CraftReserved(reserved, crafts) => NamedSends(c, reserved, crafts);
    case _ =>
  }

  predicate Simple(a: Action)
  {
    a.LabTableCombine? || a.BeaconPayment? || a.MineBlock? || a.CraftNonImplemented?
  }

  lemma SimpleSends(c: Settings, a: Action)
    requires Simple(a)
    ensures Sends(c, ACTIONS[Variant(a).0], BodyVal(a), Sent(c, a))
  {
    hide Sends, ActionWithin, Varuint, Varint, LowBytes;
    OthersWithin(c, a);
    match a
    case LabTableCombine => NothingSends(c);
    case BeaconPayment(primary, secondary) => BeaconSends(c, primary, secondary);
    case MineBlock(slot, durability, stackId) => MineSends(c, slot, durability, stackId);
    case CraftNonImplemented => NothingSends(c);
    case _ =>
  }

  lemma OthersWithin(c: Settings, a: Action)
    ensures !a.AutoCraftRecipe? && !a.CraftResults? ==> ActionWithin(c, a)
  {
  }

  /** The body of every action is that of its variant. */
  lemma BodySends(c: Settings, a: Action)
    requires a.Valid() && a.Writable()
    ensures Sends(c, ACTIONS[Variant(a).0], BodyVal(a), Sent(c, a))
  {
    hide Sends, BodyVal, Sent, Action.Valid, Action.Writable;
    if Moves(a) {
      MoveSends(c, a);
    } else if Variant(a).0 < 7 {
      ReleaseSends(c, a);
    } else if a.AutoCraftRecipe? {
      AutoSends(c, a);
    } else if a.CraftResults? {
      ResultsSends(c, a);
    } else if Crafts(a) {
      CraftingSends(c, a);
    } else if a.CraftLoom? || a.CraftReserved? {
      LoomSends(c, a);
    } else {
      SimpleSends(c, a);
    }
  }

  function ActionSent(c: Settings, a: Action): Sending
    requires a.Valid()
  {
    Sending(ActionBytes(c, a), ActionVal(ActionRead(a)), ActionWithin(c, a))
  }

  lemma ActionTag(k: nat)
    requires k < 19
    ensures TagBytes(Tagging.Action, k) == [k, if k >= 7 then k + 2 else k]
  {
  }

  /**
   * What every action is sent as: its variant, its ID and its fields in order. And what a reader makes of it.
   */
  lemma ActionSends(c: Settings, a: Action)
    requires a.Valid() && a.Writable()
    ensures Sends(c, ACTION, ActionVal(a), ActionSent(c, a))
  {
    hide Sends, Body, BodyVal, ActionWithin;
    BodySends(c, a);
    CaseSends(c, Tagging.Action, ACTIONS, Variant(a).0, BodyVal(a), Sent(c, a));
    ActionTag(Variant(a).0);
    assert Variant(ActionRead(a)) == Variant(a);
  }

  // -------------------------------------------------------- from values to actions

  function ByteIn(v: Val): byte { IntIn(v) % 0x100 }

  function U32In(v: Val): u32 { IntIn(v) % 0x1_0000_0000 }

  function I32In(v: Val): i32
  {
    var u := IntIn(v) % 0x1_0000_0000;
    if u < 0x8000_0000 then u else u - 0x1_0000_0000
  }

  function I16In(v: Val): i16
  {
    var u := IntIn(v) % 0x1_0000;
    if u < 0x8000 then u else u - 0x1_0000
  }

  lemma NumbersIn(b: byte, s: i16, i: i32, u: u32)
    ensures ByteIn(Integer(b)) == b && I16In(Integer(s)) == s && I32In(Integer(i)) == i && U32In(Integer(u)) == u
  {
  }

  function Left(v: Val): Val { if v.Both? then v.a else Unit }

  function Right(v: Val): Val { if v.Both? then v.b else Unit }

  function Chosen(v: Val): bool { v.Case? && v.k == 1 }

  function Inside(v: Val): Val { if v.Case? then v.v else Unit }

  function SlotIn(v: Val): Slot
  {
    var o := Right(Left(v));
    Slot(ByteIn(Left(Left(v))), if Chosen(o) then Some(U32In(Inside(o))) else None,
         ByteIn(Left(Right(v))), I32In(Right(Right(v))))
  }

  lemma SlotBack(s: Slot)
    ensures SlotIn(s.ToVal()) == s
  {
    NumbersIn(s.container, 0, s.stackId, if s.dynamic.Some? then s.dynamic.value else 0);
    NumbersIn(s.slot, 0, 0, 0);
  }

  function DescriptorIn(v: Val): Descriptor
  {
    var x := Inside(v);
    if !v.Case? || v.k == 0 then Invalid
    else if v.k == 1 then Default(StrIn(Left(x)), I32In(Right(x)))
    else if v.k == 2 then MoLang(StrIn(Left(x)), I16In(Right(x)))
    else ItemTag(StrIn(x))
  }

  function IngredientIn(v: Val): Ingredient { Ingredient(DescriptorIn(Left(v)), I32In(Right(v))) }

  lemma IngredientBack(x: Ingredient)
    ensures IngredientIn(x.ToVal()) == x
  {
    NumbersIn(0, 0, x.count, 0);
    if x.descriptor.Default? { NumbersIn(0, 0, x.descriptor.meta, 0); }
    if x.descriptor.MoLang? { NumbersIn(0, x.descriptor.version, 0, 0); }
  }

  function IngredientsIn(v: Val): seq<Ingredient>
  {
    if v.Many? then seq(|v.xs|, i requires 0 <= i < |v.xs| => IngredientIn(v.xs[i])) else []
  }

  function ItemsIn(v: Val): seq<StackRequestItem>
  {
    if v.Many? then seq(|v.xs|, i requires 0 <= i < |v.xs| => RequestItemIn(v.xs[i])) else []
  }

  lemma ListsBack(ingredients: seq<Ingredient>, items: seq<StackRequestItem>)
    ensures IngredientsIn(Many(IngredientVals(ingredients))) == ingredients
    ensures ItemsIn(Many(ItemVals(items))) == items
  {
    forall i | 0 <= i < |ingredients| ensures IngredientIn(ingredients[i].ToVal()) == ingredients[i] {
      IngredientBack(ingredients[i]);
    }
    forall i | 0 <= i < |items| ensures RequestItemIn(items[i].ToVal()) == items[i] {
      DataBack(items[i].ToVal().front, items[i].data);
    }
  }

  /** The Go action that a value read fills. */
  function ActionIn(v: Val): Action
  {
    var x := Inside(v);
    var a, b := Left(x), Right(x);
    match if v.Case? then v.k else 7
    case 0 => Take(ByteIn(a), SlotIn(Left(b)), SlotIn(Right(b)))
    case 1 => Place(ByteIn(a), SlotIn(Left(b)), SlotIn(Right(b)))
    case 2 => Swap(SlotIn(a), SlotIn(b))
    case 3 => Drop(ByteIn(a), SlotIn(Left(b)), Chosen(Right(b)))
    case 4 => Destroy(ByteIn(a), SlotIn(b))
    case 5 => Consume(ByteIn(a), SlotIn(b))
    case 6 => Create(ByteIn(x))
    case 8 => BeaconPayment(I32In(a), I32In(b))
    case 9 => MineBlock(I32In(a), I32In(Left(b)), I32In(Right(b)))
    case 10 => CraftRecipe(U32In(a), ByteIn(b))
    case 11 => AutoCraftRecipe(U32In(a), ByteIn(Left(b)), IngredientsIn(Right(b)))
    case 12 => CraftCreative(U32In(a), ByteIn(b))
    case 13 => CraftRecipeOptional(U32In(a), I32In(b))
    case 14 => CraftGrindstone(U32In(a), ByteIn(Left(b)), I32In(Right(b)))
    case 15 => CraftLoom(StrIn(a), ByteIn(b))
    case 16 => CraftReserved(StrIn(a), ByteIn(b))
    case 17 => CraftNonImplemented
    case 18 => CraftResults(ItemsIn(a), ByteIn(b))
    case _ => LabTableCombine
  }

  lemma MoveBack(a: Action)
    requires Variant(a).0 < 7
    ensures ActionIn(ActionVal(a)) == a
  {
    hide SlotIn, Slot.ToVal, ByteIn;
    if a.Take? || a.Place? || a.Swap? { SlotBack(a.source); SlotBack(a.destination); }
    if a.Drop? || a.Destroy? || a.Consume? { SlotBack(a.source); }
    NumbersIn(if a.Create? then a.resultsSlot else if a.Swap? then 0 else a.count, 0, 0, 0);
  }

  lemma CraftBack(a: Action)
    requires Variant(a).0 >= 7
    ensures ActionIn(ActionVal(a)) == a
  {
    hide ByteIn, I32In, U32In, IngredientVals, ItemVals, IngredientsIn, ItemsIn;
    if a.AutoCraftRecipe? { ListsBack(a.ingredients, []); }
    if a.CraftResults? { ListsBack([], a.items); }
    assert forall b: byte :: ByteIn(Integer(b)) == b by { forall b: byte { NumbersIn(b, 0, 0, 0); } }
    assert forall i: i32 :: I32In(Integer(i)) == i by { forall i: i32 { NumbersIn(0, 0, i, 0); } }
    assert forall u: u32 :: U32In(Integer(u)) == u by { forall u: u32 { NumbersIn(0, 0, 0, u); } }
  }

  lemma ActionBack(a: Action)
    ensures ActionIn(ActionVal(a)) == a
  {
    if Variant(a).0 < 7 { MoveBack(a); } else { CraftBack(a); }
  }

  /** The bytes of an action are read as that action, or refused where a list is too long or a compound is not read. */
  lemma ActionIsRead(c: Settings, a: Action, t: Bytes, i: In)
    requires a.Valid() && a.Writable() && Input(Wrote(ActionBytes(c, a)), t, i)
    ensures if ActionWithin(c, a) then Back(Map(Dec(c, ACTION, i), ActionIn), None, ActionRead(a), t, i)
            else Dec(c, ACTION, i).Bad?
    ensures !a.AutoCraftRecipe? && !a.CraftResults? ==> ActionWithin(c, a) && ActionRead(a) == a
  {
    hide Dec, Grounded, Sends, ActionBytes, ActionVal, ActionIn, Action.Valid, Action.Writable;
    ActionGrounded();
    ActionSends(c, a);
    SentIsRead(c, ACTION, ActionVal(a), ActionSent(c, a), t, i);
    ActionBack(ActionRead(a));
    OthersWithin(c, a);
  }
}
