/** The formats built on the combinators: stack request actions, item descriptors and data store values. */
module Requests {
  import opened Wire
  import opened Fields
  import opened Shapes
  import opened ShapeReading
  import opened ShapeRoundTrip
  import opened ShapeLimits
  import opened ShapeKept
  import Items

  // ------------------------------------------------------------------- actions

  const BYTE := Plain(OneByte)
  const INT32 := Plain(Fixed(Four, true))
  const VAR := Plain(VARINT32)
  const UVAR := Plain(VARUINT32)

  /** FullContainerName, and StackReqSlotInfo. */
  const CONTAINER := Pair(BYTE, Optional(Plain(Fixed(Four, false))))
  const SLOT := Pair(CONTAINER, Pair(BYTE, INT32))

  const DESCRIPTOR := Union(Loose, [Nothing, Pair(Txt, VAR), Pair(Txt, Plain(Fixed(Two, true))), Txt])

  /** StackRequestItemDescriptorCount: the count is sent in 16 bits. */
  const INGREDIENT := Pair(DESCRIPTOR, Num(Fixed(Two, false), I32))

  const TRANSFER := Pair(BYTE, Pair(SLOT, SLOT))
  const DROP := Pair(BYTE, Pair(SLOT, FLAG))
  const DESTROY := Pair(BYTE, SLOT)
  const BEACON := Pair(VAR, VAR)
  const MINE := Pair(VAR, Pair(VAR, INT32))
  const CRAFT := Pair(UVAR, BYTE)
  const AUTO := Pair(UVAR, Pair(BYTE, Slice(VarCount, INGREDIENT)))
  const OPTIONAL_CRAFT := Pair(UVAR, INT32)
  const GRINDSTONE := Pair(Num(Fixed(Four, true), U32), Pair(BYTE, VAR))
  const NAMED := Pair(Txt, BYTE)
  const RESULTS := Pair(Slice(VarCount, Items.REQUEST_ITEM), BYTE)

  /** The bodies of the actions by variant: Take, Place, Swap, Drop, Destroy, Consume, Create; then LabTableCombine on. */
  const ACTIONS: seq<Shape> :=
    [TRANSFER, TRANSFER, Pair(SLOT, SLOT), DROP, DESTROY, DESTROY, BYTE,
     Nothing, BEACON, MINE, CRAFT, AUTO, CRAFT, OPTIONAL_CRAFT, GRINDSTONE, NAMED, NAMED, Nothing, RESULTS]

  const ACTION := Union(Action, ACTIONS)

  const REQUEST := Pair(VAR, Pair(Slice(VarCount, ACTION), Pair(Slice(VarCount, Txt), INT32)))

  /**
   * The variant an action is sent under leads the reader back to its ID, for every ID but the two container actions
   * that are never sent.
   */
  lemma ActionIdsAgree(id: nat)
    requires id <= 20
    ensures ActionId(ActionVariant(id)) == id <==> id != 7 && id != 8
    ensures ActionVariant(id) < |ACTIONS|
  {
  }

  /** Two sent actions never share a variant. */
  lemma VariantsDiffer(a: nat, b: nat)
    requires a < b <= 20 && a != 7 && a != 8 && b != 7 && b != 8
    ensures ActionVariant(a) != ActionVariant(b)
  {
    ActionIdsAgree(a);
    ActionIdsAgree(b);
  }

  lemma PairGrounded(a: Shape, b: Shape)
    requires Grounded(a) && Grounded(b)
    ensures Grounded(Pair(a, b))
  {
  }

  lemma ListGrounded(count: Counter, e: Shape)
    requires Sized(e) && Grounded(e)
    ensures Grounded(Slice(count, e))
  {
  }

  lemma ItemsGrounded()
    ensures Grounded(Items.REQUEST_ITEM)
  {
    assert Grounded(Items.REQUEST_ITEM.head.first.element);
    assert Grounded(Items.REQUEST_ITEM.head.first);
    assert Grounded(Items.REQUEST_ITEM.head.second);
    Items.ItemGrounded(ByName, Items.REQUEST_ITEM.head);
  }

  lemma IngredientGrounded()
    ensures Grounded(INGREDIENT) && Sized(INGREDIENT)
  {
    assert Grounded(DESCRIPTOR);
  }

  lemma SlotGrounded()
    ensures Grounded(SLOT)
  {
    assert Grounded(CONTAINER.second);
    PairGrounded(BYTE, CONTAINER.second);
  }

  lemma BasesGrounded()
    ensures Grounded(BYTE) && Grounded(INT32) && Grounded(VAR) && Grounded(UVAR) && Grounded(FLAG) && Grounded(Txt)
    ensures Grounded(Nothing) && Grounded(Num(Fixed(Four, true), U32))
  {
  }

  lemma TransfersGrounded()
    ensures Grounded(TRANSFER) && Grounded(Pair(SLOT, SLOT)) && Grounded(DROP) && Grounded(DESTROY)
  {
    hide Grounded;
    BasesGrounded();
    SlotGrounded();
    PairGrounded(SLOT, SLOT);
    PairGrounded(SLOT, FLAG);
    PairGrounded(BYTE, TRANSFER.second);
    PairGrounded(BYTE, DROP.second);
    PairGrounded(BYTE, SLOT);
  }

  lemma CraftsGrounded()
    ensures Grounded(BEACON) && Grounded(MINE) && Grounded(CRAFT) && Grounded(AUTO) && Grounded(OPTIONAL_CRAFT)
    ensures Grounded(GRINDSTONE) && Grounded(NAMED) && Grounded(RESULTS)
  {
    hide Grounded;
    BasesGrounded();
    ItemsGrounded();
    IngredientGrounded();
    PairGrounded(VAR, VAR);
    PairGrounded(VAR, INT32);
    PairGrounded(VAR, MINE.second);
    PairGrounded(UVAR, BYTE);
    ListGrounded(VarCount, INGREDIENT);
    PairGrounded(BYTE, AUTO.second.second);
    PairGrounded(UVAR, AUTO.second);
    PairGrounded(UVAR, INT32);
    PairGrounded(BYTE, VAR);
    PairGrounded(Num(Fixed(Four, true), U32), GRINDSTONE.second);
    PairGrounded(Txt, BYTE);
    ListGrounded(VarCount, Items.REQUEST_ITEM);
    PairGrounded(RESULTS.first, BYTE);
  }

  lemma ActionsGrounded()
    ensures forall k | 0 <= k < |ACTIONS| :: Grounded(ACTIONS[k])
  {
    hide Grounded;
    BasesGrounded();
    TransfersGrounded();
    CraftsGrounded();
  }

  lemma ActionGrounded()
    ensures Grounded(ACTION)
  {
    ActionsGrounded();
  }

  lemma RequestGrounded()
    ensures Grounded(REQUEST)
  {
    hide Grounded;
    ActionGrounded();
    BasesGrounded();
    ListGrounded(VarCount, ACTION);
    ListGrounded(VarCount, Txt);
    PairGrounded(REQUEST.second.second.first, INT32);
    PairGrounded(REQUEST.second.first, REQUEST.second.second);
    PairGrounded(VAR, REQUEST.second);
  }

  /**
   * Whole requests: any list of any actions, with ingredient and result lists inside them, comes back as Canon has it if
   * and only if its lists keep to the limit and its items are readable. A request nothing is lost of comes back as it is.
   */
  lemma RequestRoundTrip(c: Settings, v: Val, t: Bytes, i: In)
    requires Fits(REQUEST, v) && Input(Enc(c, REQUEST, v), t, i)
    ensures Within(c, REQUEST, v) ==> Back(Dec(c, REQUEST, i), None, Canon(c, REQUEST, v), t, i)
    ensures !Within(c, REQUEST, v) ==> Dec(c, REQUEST, i).Bad?
    ensures Lossless(c, REQUEST, v) ==> Canon(c, REQUEST, v) == v
  {
    hide Grounded, Canon, Within, Lossless, Enc, Dec, Fits;
    RequestGrounded();
    GroundedRoundTrip(c, REQUEST, v, t, i);
    if Lossless(c, REQUEST, v) { LosslessIsKept(c, REQUEST, v); }
  }

  /** The count of an ingredient is an int32 in memory and 16 unsigned bits on the wire: it survives just when it fits. */
  lemma IngredientCount(c: Settings, descriptor: Val, n: int)
    requires Fits(DESCRIPTOR, descriptor) && I32.Has(n)
    ensures var v := Both(descriptor, Integer(n));
      Fits(INGREDIENT, v) && Canon(c, INGREDIENT, v) == Both(Canon(c, DESCRIPTOR, descriptor), Integer(n % 0x1_0000))
    ensures n % 0x1_0000 == n <==> 0 <= n < 0x1_0000
  {
    Pow2Values();
    Int32Bounds(n % 0x1_0000);
    OfHas(I32, n % 0x1_0000);
  }

  // --------------------------------------------------------------- data store values

  /** No slice in it is longer than a uint32 counts. */
  predicate Counted(v: Val)
  {
    match v
    case Both(a, b) => Counted(a) && Counted(b)
    case Many(xs) => |xs| < 0x1_0000_0000 && forall i | 0 <= i < |xs| :: Counted(xs[i])
    case Case(_, w) => Counted(w)
    case _ => true
  }

  /** Whether a slice is written whole. */
  lemma CountIsWhole(n: nat)
    requires n < 0x1_0000_0000
    ensures VarCount.Of(n) == n
  {
    Pow2Values();
    SmallMod(n, Pow2(32));
  }

  lemma {:induction false} StoreLossless(c: Settings, v: Val)
    requires Fits(Store, v) && Counted(v)
    ensures Lossless(c, Store, v)
    decreases v
  {
    if v.k == 5 {
      StoreListLossless(c, v.v);
    } else if v.k == 6 {
      StoreMapLossless(c, v.v);
    }
  }

  lemma {:induction false} StoreListLossless(c: Settings, v: Val)
    requires Fits(STORE_CASES[5], v) && Counted(v)
    ensures Lossless(c, STORE_CASES[5], v)
    decreases v
  {
    CountIsWhole(|v.xs|);
    forall i | 0 <= i < |v.xs| ensures Lossless(c, Store, v.xs[i]) { StoreLossless(c, v.xs[i]); }
  }

  lemma {:induction false} StoreMapLossless(c: Settings, v: Val)
    requires Fits(STORE_CASES[6], v) && Counted(v)
    ensures Lossless(c, STORE_CASES[6], v)
    decreases v
  {
    CountIsWhole(|v.xs|);
    var e := Pair(Txt, Store);
    forall i | 0 <= i < |v.xs| ensures Lossless(c, e, v.xs[i]) {
      StoreLossless(c, v.xs[i].b);
    }
  }

  /** The types a data store value and those inside it may have. */
  predicate KnownTypes(v: Val)
    requires Fits(Store, v)
    decreases v
  {
    0 <= v.k < 7 && (v.k == 5 ==> KnownList(v.v)) && (v.k == 6 ==> KnownMap(v.v))
  }

  predicate KnownList(v: Val)
    requires Fits(STORE_CASES[5], v)
    decreases v
  {
    forall i | 0 <= i < |v.xs| :: KnownTypes(v.xs[i])
  }

  predicate KnownMap(v: Val)
    requires Fits(STORE_CASES[6], v)
    decreases v
  {
    forall i | 0 <= i < |v.xs| :: KnownEntry(v.xs[i])
  }

  predicate KnownEntry(v: Val)
    requires Fits(Pair(Txt, Store), v)
    decreases v
  {
    KnownTypes(v.b)
  }

  lemma {:induction false} ListWritten(c: Settings, e: Shape, xs: seq<Val>, n: nat)
    requires n <= |xs| && forall i | 0 <= i < |xs| :: Fits(e, xs[i])
    ensures EncSome(c, e, xs, n).Wrote? <==> forall i | 0 <= i < n :: Enc(c, e, xs[i]).Wrote?
  {
    hide Enc, Fits;
    if n > 0 {
      ListWritten(c, e, xs[1..], n - 1);
      assert forall i | 1 <= i < n :: xs[i] == xs[1..][i - 1];
    }
  }

  /** A data store value is written exactly when every type in it is one of the seven. */
  lemma {:induction false} WrittenIffKnown(c: Settings, v: Val)
    requires Fits(Store, v) && Counted(v)
    ensures Enc(c, Store, v).Wrote? <==> KnownTypes(v)
    decreases v
  {
    hide Enc;
    StoreOpens(c, v);
    if v.k == 5 {
      StoreListWritten(c, v.v);
    } else if v.k == 6 {
      StoreMapWritten(c, v.v);
    } else if 0 <= v.k < 5 {
      StoreLeafWritten(c, v.k, v.v);
    }
  }

  lemma StoreOpens(c: Settings, v: Val)
    requires Fits(Store, v)
    ensures Enc(c, Store, v).Wrote? <==> 0 <= v.k < 7 && Enc(c, STORE_CASES[v.k], v.v).Wrote?
  {
  }

  lemma StoreLeafWritten(c: Settings, k: nat, v: Val)
    requires k < 5 && Fits(STORE_CASES[k], v)
    ensures Enc(c, STORE_CASES[k], v).Wrote?
  {
  }

  lemma {:induction false} StoreListWritten(c: Settings, v: Val)
    requires Fits(STORE_CASES[5], v) && Counted(v)
    ensures Enc(c, STORE_CASES[5], v).Wrote? <==> KnownList(v)
    decreases v
  {
    hide Enc;
    forall i | 0 <= i < |v.xs| ensures Enc(c, Store, v.xs[i]).Wrote? <==> KnownTypes(v.xs[i]) {
      WrittenIffKnown(c, v.xs[i]);
    }
    SliceWritten(c, Store, v);
  }

  lemma {:induction false} StoreMapWritten(c: Settings, v: Val)
    requires Fits(STORE_CASES[6], v) && Counted(v)
    ensures Enc(c, STORE_CASES[6], v).Wrote? <==> KnownMap(v)
    decreases v
  {
    hide Enc;
    var e := Pair(Txt, Store);
    forall i | 0 <= i < |v.xs| ensures Enc(c, e, v.xs[i]).Wrote? <==> KnownEntry(v.xs[i]) {
      WrittenIffKnown(c, v.xs[i].b);
      PairWritten(c, Txt, Store, v.xs[i]);
    }
    SliceWritten(c, e, v);
  }

  lemma PairWritten(c: Settings, a: Shape, b: Shape, v: Val)
    requires Fits(Pair(a, b), v)
    ensures Enc(c, Pair(a, b), v).Wrote? <==> Enc(c, a, v.a).Wrote? && Enc(c, b, v.b).Wrote?
    ensures a == Txt ==> Enc(c, a, v.a).Wrote?
  {
  }

  lemma SliceWritten(c: Settings, e: Shape, v: Val)
    requires Fits(Slice(VarCount, e), v) && |v.xs| < 0x1_0000_0000
    ensures Enc(c, Slice(VarCount, e), v).Wrote? <==> forall i | 0 <= i < |v.xs| :: Enc(c, e, v.xs[i]).Wrote?
  {
    CountIsWhole(|v.xs|);
    ListWritten(c, e, v.xs, |v.xs|);
  }

  /**
   * Data store values decode to themselves: any nesting of lists and maps, whatever follows, exactly when no list or map
   * in it is above the reader's limit.
   */
  lemma StoreRoundTrip(c: Settings, v: Val, t: Bytes, i: In)
    requires Fits(Store, v) && Counted(v) && Input(Enc(c, Store, v), t, i)
    ensures Within(c, Store, v) ==> Back(Dec(c, Store, i), None, v, t, i)
    ensures !Within(c, Store, v) ==> Dec(c, Store, i).Bad?
  {
    StoreLossless(c, v);
    Identity(c, Store, v, t, i);
  }
}
