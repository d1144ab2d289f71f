/** A reader running over a shape, and how it depends on its input. */
module ShapeReading {
  import opened Wire
  import opened Varints
  import opened Fields
  import opened Shapes
  import NbtFormat
  import Nbt = NbtTree
  import NbtDecode

  function ReadTag(tag: Tagging, n: nat, i: In): (r: Out<nat>)
    requires i.Valid()
    ensures r.Got? ==> r.left.Valid() && |r.left.data| < |i.data|
    ensures r.Got? && n > 1 ==> r.v < n
  {
    match tag
    case Boolean =>
      if i.data == [] then Bad(Overrun) else Got(if i.data[0] == 0 then 0 else 1, i.At(i.data[1..]))
    case Word =>
      NumberPrefix(4, i, []);
      (match ReadNumber(4, i)
       case Bad(e) => Bad(e)
       case Got(u, left) => if 0 <= I32.Of(u) < n then Got(I32.Of(u), left) else Bad(UnknownOption))
    case _ =>
      VaruintPrefix(W32, i.data, []);
      match ReadVaruint(W32, i.data)
      case Err(e) => Bad(e)
      case Ok(k, rest) =>
        if rest == [] then Bad(Overrun)
        else
          var legacy := rest[0];
          if tag.Echoed? && legacy != k then Bad(InvalidValue)
          else if k >= n then Bad(UnknownOption)
          else Got(k, i.At(rest[1..]))
  }

  /** Reader.NBT: a compound into a map, where a lone end tag stands for an empty one. */
  function DecCompound(f: NbtFormat.Format, i: In): (r: Out<seq<Nbt.Entry>>)
    ensures r.Got? ==> r.left.scratch == i.scratch && r.left.cut == i.cut && |r.left.data| <= |i.data|
  {
    match NbtDecode.DecTag(f, NbtDecode.Dec(i.data, |i.data|, 0))
    case Lost(e) => Bad(e)
    case Got((t, _), d) =>
      NbtDecode.DecTagFacts(f, NbtDecode.Dec(i.data, |i.data|, 0), []);
      if t == Nbt.TAG_END then Got([], i.At(d.s))
      else
        match NbtDecode.DecPayload(f, t, d)
        case Lost(e) => Bad(e)
        case Got(o, d') => if o.Struct? then Got(o.entries, i.At(d'.s)) else Bad(WrongType)
  }

  /** NBT has a reader of its own: it neither reads nor changes the packet reader's scratch buffer. */
  lemma DecCompoundIgnores(f: NbtFormat.Format, i: In, i': In)
    requires i.data == i'.data
    ensures match DecCompound(f, i)
            case Bad(e) => DecCompound(f, i') == Bad(e)
            case Got(es, left) => DecCompound(f, i') == Got(es, i'.At(left.data))
  {
  }

  /** The compound of an item, at the start of its nested buffer. */
  function DecNested(c: Settings, i: In): (r: Out<seq<Nbt.Entry>>)
    requires i.Valid()
    ensures r.Got? ==> r.left.Valid() && |r.left.data| <= |i.data|
  {
    match DecForm(Fixed(Two, true), i)
    case Bad(e) => Bad(e)
    case Got(n, left) =>
      if n == 0 then Got([], left)
      else if n != -1 then DecCompound(c.Nested(), left)
      else
        match DecForm(OneByte, left)
        case Bad(e) => Bad(e)
        case Got(version, left') => if version == 1 then DecCompound(c.Nested(), left') else Bad(UnknownOption)
  }

  function Dec(c: Settings, s: Shape, i: In): (r: Out<Val>)
    requires i.Valid()
    ensures r.Got? ==> r.left.Valid() && |r.left.data| <= |i.data|
    decreases |i.data|, s, 1
  {
    match s
    case Nothing => Got(Unit, i)
    case Num(form, go) =>
      (match DecForm(form, i)
       case Bad(e) => Bad(e)
       case Got(n, left) => Got(Integer(go.Of(n)), left))
    case Txt => TextShorter(i); AsStr(ReadText(i))
    case ShortTxt => ShortTextPrefix(i, []); AsStr(ReadShortText(i))
    case Pair(a, b) =>
      (match Dec(c, a, i)
       case Bad(e) => Bad(e)
       case Got(x, left) =>
         match Dec(c, b, left)
         case Bad(e) => Bad(e)
         case Got(y, left') => Got(Both(x, y), left'))
    case Slice(_, _) => DecSlice(c, s, i)
    case Union(tag, cases) =>
      (match ReadTag(tag, |cases|, i)
       case Bad(e) => Bad(e)
       case Got(k, left) =>
         if k >= |cases| then Bad(UnknownOption) else AsCase(k, Dec(c, cases[k], left)))
    case Unless(tag, blank, e) =>
      (match ReadTag(tag, 2, i)
       case Bad(error) => Bad(error)
       case Got(k, left) => if k == 0 then Got(blank, left) else Dec(c, e, left))
    case Store =>
      (match ReadTag(Word, 7, i)
       case Bad(e) => Bad(e)
       case Got(k, left) => AsCase(k, Dec(c, STORE_CASES[k], left)))
    case Compound =>
      (match DecCompound(c.Network(), i)
       case Bad(e) => Bad(e)
       case Got(es, left) => Got(Tags(es), left))
    case Item(key, head, lists) =>
      match Dec(c, head, i)
      case Bad(e) => Bad(e)
      case Got(front, left) => DecBox(c, key, lists, front, left)
  }

  function AsStr(r: Out<Bytes>): Out<Val>
  {
    match r case Bad(e) => Bad(e) case Got(s, left) => Got(Str(s), left)
  }

  function AsCase(k: nat, r: Out<Val>): Out<Val>
  {
    match r case Bad(e) => Bad(e) case Got(v, left) => Got(Case(k, v), left)
  }

  function DecSlice(c: Settings, s: Shape, i: In): (r: Out<Val>)
    requires i.Valid() && s.Slice?
    ensures r.Got? ==> r.left.Valid() && |r.left.data| <= |i.data|
    decreases |i.data|, s, 0
  {
    match DecForm(s.count.Form(), i)
    case Bad(error) => Bad(error)
    case Got(n, left) =>
      if TooMany(c, s.count, n, |left.data|) then Bad(SliceTooLong)
      else
        match DecMany(c, s.element, n, left)
        case Bad(error) => Bad(error)
        case Got(xs, left') => Got(Many(xs), left')
  }

  function DecMany(c: Settings, e: Shape, n: nat, i: In): (r: Out<seq<Val>>)
    requires i.Valid()
    ensures r.Got? ==> r.left.Valid() && |r.left.data| <= |i.data|
    decreases |i.data|, e, n + 1
  {
    if n == 0 then Got([], i)
    else
      match Dec(c, e, i)
      case Bad(error) => Bad(error)
      case Got(x, left) =>
        match DecMany(c, e, n - 1, left)
        case Bad(error) => Bad(error)
        case Got(xs, left') => Got([x] + xs, left')
  }

  /** The user data of an item whose head was read. */
  function DecBox(c: Settings, key: ItemKey, lists: Shape, front: Val, i: In): (r: Out<Val>)
    requires i.Valid()
    ensures r.Got? ==> r.left.Valid() && |r.left.data| <= |i.data|
    decreases |i.data|, lists, 4
  {
    TextShorter(i);
    match ReadText(i)
    case Bad(e) => Bad(e)
    case Got(extra, left) =>
      if extra == [] then Got(Stack(front, [], NO_PERMITS, 0), left)
      else
        match DecUser(c, key, lists, front, Start(extra))
        case Bad(e) => Bad(e)
        case Got(v, _) => Got(v, left)
  }

  /** The nested buffer of an item's user data. What is left of it is not looked at. */
  function DecUser(c: Settings, key: ItemKey, lists: Shape, front: Val, i: In): (r: Out<Val>)
    requires i.Valid()
    decreases |i.data|, lists, 3
  {
    match DecNested(c, i)
    case Bad(e) => Bad(e)
    case Got(es, left) => DecPermits(c, key, lists, front, es, left)
  }

  /** The two lists of the user data, and the tick of a shield. */
  function DecPermits(c: Settings, key: ItemKey, lists: Shape, front: Val, es: seq<Nbt.Entry>, i: In): (r: Out<Val>)
    requires i.Valid()
    decreases |i.data|, lists, 2
  {
    match Dec(c, lists, i)
    case Bad(e) => Bad(e)
    case Got(permits, left) =>
      match DecTick(c, key, front, left)
      case Bad(e) => Bad(e)
      case Got(tick, left') => Got(Stack(front, es, permits, tick), left')
  }

  function DecTick(c: Settings, key: ItemKey, front: Val, i: In): Out<int>
    requires i.Valid()
  {
    if c.Shielded(key, front) then DecForm(TICK, i) else Got(0, i)
  }

  // ---------------------------------------------- reading depends on a prefix only

  /** What was read whole stays the same when more input follows, and a short read is never forgotten. */
  predicate Steady<T(==)>(i: In, r: Out<T>, r': Out<T>, t: Bytes)
  {
    Prefixed(r, r', t) && (r.Got? && i.cut ==> r.left.cut)
  }

  lemma FormPrefix(f: Form, i: In, t: Bytes)
    requires i.Valid()
    ensures Steady(i, DecForm(f, i), DecForm(f, i.Append(t)), t)
  {
    match f
    case OneByte => if i.data != [] { assert (i.data + t)[1..] == i.data[1..] + t; }
    case Fixed(size, _) => NumberPrefix(size.Bytes(), i, t);
    case Var(w, _) => VaruintPrefix(w, i.data, t);
  }

  lemma TagPrefix(tag: Tagging, n: nat, i: In, t: Bytes)
    requires i.Valid()
    ensures Steady(i, ReadTag(tag, n, i), ReadTag(tag, n, i.Append(t)), t)
  {
    if tag.Boolean? {
      if i.data != [] { assert (i.data + t)[1..] == i.data[1..] + t; }
    } else if tag.Word? {
      NumberPrefix(4, i, t);
    } else {
      VaruintPrefix(W32, i.data, t);
      var k := ReadVaruint(W32, i.data);
      if k.Ok? && k.rest != [] { assert (k.rest + t)[1..] == k.rest[1..] + t; }
    }
  }

  lemma CompoundPrefix(f: NbtFormat.Format, i: In, t: Bytes)
    ensures Steady(i, DecCompound(f, i), DecCompound(f, i.Append(t)), t)
  {
    var d := NbtDecode.Dec(i.data, |i.data|, 0);
    assert NbtDecode.Dec(i.data + t, |i.data + t|, 0) == d.Append(t);
    var r := NbtDecode.DecTag(f, d);
    if r.Got? {
      NbtDecode.DecTagFacts(f, d, t);
      if r.v.0 != Nbt.TAG_END && NbtDecode.DecPayload(f, r.v.0, r.d).Got? {
        NbtDecode.PayloadPrefix(f, r.v.0, r.d, t);
      }
    }
  }

  /**
   * For every shape: a reader that got a value without a short read gets the same value when more bytes follow, and
   * leaves those bytes behind what it left before.
   */
  lemma {:induction false} ReadingPrefix(c: Settings, s: Shape, i: In, t: Bytes)
    requires i.Valid()
    ensures Steady(i, Dec(c, s, i), Dec(c, s, i.Append(t)), t)
    decreases |i.data|, s, 1
  {
    match s
    case Nothing =>
    case Num(form, _) => FormPrefix(form, i, t);
    case Txt => TextPrefix(i, t);
    case ShortTxt => ShortTextPrefix(i, t);
    case Pair(a, b) =>
      ReadingPrefix(c, a, i, t);
      if Dec(c, a, i).Got? { ReadingPrefix(c, b, Dec(c, a, i).left, t); }
    case Slice(_, _) => SlicePrefix(c, s, i, t);
    case Union(tag, cases) =>
      TagPrefix(tag, |cases|, i, t);
      var k := ReadTag(tag, |cases|, i);
      if k.Got? && k.v < |cases| { ReadingPrefix(c, cases[k.v], k.left, t); }
    case Unless(tag, _, e) =>
      TagPrefix(tag, 2, i, t);
      var k := ReadTag(tag, 2, i);
      if k.Got? && k.v != 0 { ReadingPrefix(c, e, k.left, t); }
    case Store =>
      TagPrefix(Word, 7, i, t);
      var k := ReadTag(Word, 7, i);
      if k.Got? { ReadingPrefix(c, STORE_CASES[k.v], k.left, t); }
    case Compound => CompoundPrefix(c.Network(), i, t);
    case Item(key, head, lists) =>
      ReadingPrefix(c, head, i, t);
      if Dec(c, head, i).Got? { TextPrefix(Dec(c, head, i).left, t); }
  }

  lemma {:induction false} SlicePrefix(c: Settings, s: Shape, i: In, t: Bytes)
    requires i.Valid() && s.Slice?
    ensures Steady(i, DecSlice(c, s, i), DecSlice(c, s, i.Append(t)), t)
    decreases |i.data|, s, 0
  {
    FormPrefix(s.count.Form(), i, t);
    var n := DecForm(s.count.Form(), i);
    if n.Got? && !TooMany(c, s.count, n.v, |n.left.data|) {
      ManyPrefix(c, s.element, n.v, n.left, t);
    }
  }

  lemma {:induction false} ManyPrefix(c: Settings, e: Shape, n: nat, i: In, t: Bytes)
    requires i.Valid()
    ensures Steady(i, DecMany(c, e, n, i), DecMany(c, e, n, i.Append(t)), t)
    decreases |i.data|, e, n + 1
  {
    if n > 0 {
      ReadingPrefix(c, e, i, t);
      if Dec(c, e, i).Got? { ManyPrefix(c, e, n - 1, Dec(c, e, i).left, t); }
    }
  }

  // ------------------------------------------------ where it depends on what follows

  /** A read that was cut short at some number would have taken of what follows the input. */
  predicate Cuts<T(==)>(i: In, r: Out<T>, r': Out<T>, t: Bytes)
  {
    r.Got? && !i.cut && r.left.cut ==> Takes(r', t)
  }

  lemma FormCuts(f: Form, i: In, t: Bytes)
    requires i.Valid() && t != []
    ensures Cuts(i, DecForm(f, i), DecForm(f, i.Append(t)), t)
  {
    if f.Fixed? && 0 < |i.data| < f.size.Bytes() {
      NumberTakes(f.size.Bytes(), i, t);
    }
  }

  lemma TagCuts(tag: Tagging, n: nat, i: In, t: Bytes)
    requires i.Valid() && t != []
    ensures Cuts(i, ReadTag(tag, n, i), ReadTag(tag, n, i.Append(t)), t)
  {
    if tag.Word? && 0 < |i.data| < 4 {
      NumberTakes(4, i, t);
    }
  }

  lemma ShortTextCuts(i: In, t: Bytes)
    requires i.Valid() && t != []
    ensures Cuts(i, ReadShortText(i), ReadShortText(i.Append(t)), t)
  {
    if 0 < |i.data| < 2 {
      NumberTakes(2, i, t);
    }
  }

  lemma {:induction false} ReadingCuts(c: Settings, s: Shape, i: In, t: Bytes)
    requires i.Valid() && t != []
    ensures Cuts(i, Dec(c, s, i), Dec(c, s, i.Append(t)), t)
    decreases |i.data|, s, 1
  {
    hide DecForm, ReadText, ReadShortText, DecCompound;
    match s
    case Nothing =>
    case Num(form, _) => FormCuts(form, i, t);
    case Txt => TextShorter(i);
    case ShortTxt => ShortTextCuts(i, t);
    case Pair(_, _) => PairCuts(c, s, i, t);
    case Slice(_, _) => SliceCuts(c, s, i, t);
    case Union(_, _) => UnionCuts(c, s, i, t);
    case Unless(_, _, _) => UnlessCuts(c, s, i, t);
    case Store => StoreCuts(c, i, t);
    case Compound => CompoundPrefix(c.Network(), i, t);
    case Item(_, _, _) => ItemCuts(c, s, i, t);
  }

  lemma {:induction false} ItemCuts(c: Settings, s: Shape, i: In, t: Bytes)
    requires i.Valid() && s.Item? && t != []
    ensures Cuts(i, Dec(c, s, i), Dec(c, s, i.Append(t)), t)
    decreases |i.data|, s, 0
  {
    hide DecBox, Steady;
    ReadingCuts(c, s.head, i, t);
    var r := Dec(c, s.head, i);
    if r.Got? { BoxKeepsCut(c, s.key, s.lists, r.v, r.left); }
  }

  /** The user data is read by a reader of its own: nothing of the outer one is cut. */
  lemma BoxKeepsCut(c: Settings, key: ItemKey, lists: Shape, front: Val, i: In)
    requires i.Valid()
    ensures var r := DecBox(c, key, lists, front, i); r.Got? ==> r.left.cut == i.cut
  {
    TextShorter(i);
  }

  lemma {:induction false} PairCuts(c: Settings, s: Shape, i: In, t: Bytes)
    requires i.Valid() && s.Pair? && t != []
    ensures Cuts(i, Dec(c, s, i), Dec(c, s, i.Append(t)), t)
    decreases |i.data|, s, 0
  {
    ReadingPrefix(c, s.first, i, t);
    ReadingCuts(c, s.first, i, t);
    if Dec(c, s.first, i).Got? { ReadingCuts(c, s.second, Dec(c, s.first, i).left, t); }
  }

  lemma {:induction false} UnionCuts(c: Settings, s: Shape, i: In, t: Bytes)
    requires i.Valid() && s.Union? && t != []
    ensures Cuts(i, Dec(c, s, i), Dec(c, s, i.Append(t)), t)
    decreases |i.data|, s, 0
  {
    TagPrefix(s.tag, |s.cases|, i, t);
    TagCuts(s.tag, |s.cases|, i, t);
    var k := ReadTag(s.tag, |s.cases|, i);
    if k.Got? && k.v < |s.cases| { ReadingCuts(c, s.cases[k.v], k.left, t); }
  }

  lemma {:induction false} UnlessCuts(c: Settings, s: Shape, i: In, t: Bytes)
    requires i.Valid() && s.Unless? && t != []
    ensures Cuts(i, Dec(c, s, i), Dec(c, s, i.Append(t)), t)
    decreases |i.data|, s, 0
  {
    TagPrefix(s.tag, 2, i, t);
    TagCuts(s.tag, 2, i, t);
    var k := ReadTag(s.tag, 2, i);
    if k.Got? && k.v != 0 { ReadingCuts(c, s.element, k.left, t); }
  }

  lemma {:induction false} StoreCuts(c: Settings, i: In, t: Bytes)
    requires i.Valid() && t != []
    ensures Cuts(i, Dec(c, Store, i), Dec(c, Store, i.Append(t)), t)
    decreases |i.data|, Store, 0
  {
    TagPrefix(Word, 7, i, t);
    TagCuts(Word, 7, i, t);
    var k := ReadTag(Word, 7, i);
    if k.Got? { ReadingCuts(c, STORE_CASES[k.v], k.left, t); }
  }

  lemma {:induction false} SliceCuts(c: Settings, s: Shape, i: In, t: Bytes)
    requires i.Valid() && s.Slice? && t != []
    ensures Cuts(i, DecSlice(c, s, i), DecSlice(c, s, i.Append(t)), t)
    decreases |i.data|, s, 0
  {
    FormPrefix(s.count.Form(), i, t);
    FormCuts(s.count.Form(), i, t);
    var n := DecForm(s.count.Form(), i);
    if n.Got? && !TooMany(c, s.count, n.v, |n.left.data|) {
      ManyCuts(c, s.element, n.v, n.left, t);
    }
  }

  lemma {:induction false} ManyCuts(c: Settings, e: Shape, n: nat, i: In, t: Bytes)
    requires i.Valid() && t != []
    ensures Cuts(i, DecMany(c, e, n, i), DecMany(c, e, n, i.Append(t)), t)
    decreases |i.data|, e, n + 1
  {
    if n > 0 {
      ReadingPrefix(c, e, i, t);
      ReadingCuts(c, e, i, t);
      if Dec(c, e, i).Got? { ManyCuts(c, e, n - 1, Dec(c, e, i).left, t); }
    }
  }

  /**
   * A value that was read does not depend on what follows the input exactly if no fixed-width number in it was cut short
   * by the end of the input. If one was, then any bytes that follow change the value, or are partly taken.
   */
  lemma ReadingIndependentIff(c: Settings, s: Shape, i: In)
    requires i.Valid() && !i.cut && Dec(c, s, i).Got?
    ensures !Dec(c, s, i).left.cut ==> forall t :: Same(Dec(c, s, i), Dec(c, s, i.Append(t)), t)
    ensures Dec(c, s, i).left.cut ==> forall t | t != [] :: !Same(Dec(c, s, i), Dec(c, s, i.Append(t)), t)
  {
    var r := Dec(c, s, i);
    if r.left.cut {
      forall t | t != [] ensures !Same(r, Dec(c, s, i.Append(t)), t) {
        ReadingCuts(c, s, i, t);
      }
    } else {
      forall t ensures Same(r, Dec(c, s, i.Append(t)), t) {
        ReadingPrefix(c, s, i, t);
      }
    }
  }
}
