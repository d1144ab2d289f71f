/**
 * The formats of packet fields, and what a writer makes of them.
 *
 * A Marshal body is one description that a reader and a writer both follow. A Shape is that description as a value: the
 * fields and combinators a body calls, in order. Enc is a writer running over it; the reader is in ShapeReading.
 */
module Shapes {
  import opened Wire
  import opened Varints
  import opened Fields
  import NbtFormat
  import Nbt = NbtTree
  import NbtRoundTrip

  // ------------------------------------------------------------------ numbers

  datatype Size = Two | Four | Eight {
    function Bytes(): nat { match this case Two => 2 case Four => 4 case Eight => 8 }
  }

  /** How a number is laid out. Fixed-width numbers are little-endian on both host builds. */
  datatype Form = OneByte | Fixed(size: Size, signed: bool) | Var(w: Width, signed: bool) {
    function Type(): Int
    {
      match this
      case OneByte => U8
      case Fixed(size, signed) => Int(8 * size.Bytes(), signed)
      case Var(w, signed) => Int(w.Bits(), signed)
    }
  }

  const VARUINT32 := Var(W32, false)
  const VARINT32 := Var(W32, true)

  /** The number converted to the type of the form, and written. */
  function EncForm(f: Form, x: int): Bytes
  {
    match f
    case OneByte => [ToWord(8, x) % 0x100]
    case Fixed(size, _) => Number(size.Bytes(), ToWord(8 * size.Bytes(), x))
    case Var(w, signed) => if signed then Varint(f.Type().Of(x)) else Varuint(ToWord(w.Bits(), x))
  }

  function DecForm(f: Form, i: In): (r: Out<int>)
    requires i.Valid()
    ensures r.Got? ==> r.left.Valid() && |r.left.data| <= |i.data|
    ensures r.Got? && !f.Type().signed ==> r.v >= 0
  {
    match f
    case OneByte => if i.data == [] then Bad(Overrun) else Got(i.data[0], i.At(i.data[1..]))
    case Fixed(size, _) =>
      NumberPrefix(size.Bytes(), i, []);
      (match ReadNumber(size.Bytes(), i)
       case Bad(e) => Bad(e)
       case Got(u, left) => Got(f.Type().Of(u), left))
    case Var(w, signed) =>
      VaruintPrefix(w, i.data, []);
      if signed then Lift(ReadVarint(w, i.data), i) else Lift(ReadVaruint(w, i.data), i)
  }

  // ------------------------------------------------------------------- unions

  /** How the case of a union is marked. */
  datatype Tagging =
    | Boolean   // a bool: Optional, and the fields that are left out when they are zero
    | Word      // an int32
    | Echoed    // a varuint32 and a byte that must repeat it
    | Loose     // a varuint32 and a byte that repeats it, which the reader does not look at
    | Action    // a varuint32 and the ID of a stack request action, which the reader does not look at
  {
    /** Boolean has two cases, and a byte repeats only 256. */
    predicate Fits(cases: nat) { cases <= (if Boolean? then 2 else 0x100) }
  }

  /** stackRequestActionVariant: two of the action IDs, 7 and 8, are never sent. */
  function ActionVariant(id: nat): nat { if id > 8 then id - 2 else id }

  /** The ID the reader looks up for a variant. */
  function ActionId(variant: nat): nat { if variant >= 7 then variant + 2 else variant }

  function TagBytes(tag: Tagging, k: nat): Bytes
  {
    match tag
    case Boolean => [k % 0x100]
    case Word => Number(4, ToWord(32, k))
    case _ => Varuint(k) + [LegacyByte(tag, k)]
  }

  /** The byte behind a varuint32 tag. */
  function LegacyByte(tag: Tagging, k: nat): byte { (if tag.Action? then ActionId(k) else k) % 0x100 }

  // ------------------------------------------------------------- shapes and values

  /** The prefix of a slice, and whether SliceLength is asked about it. */
  datatype Counter = ByteCount | WordCount | VarCount | UncheckedCount {
    function Form(): Form
    {
      match this
      case ByteCount => OneByte
      case WordCount => Fixed(Four, false)
      case _ => VARUINT32
    }
    /** The count written for a slice of n elements, which is how many of them are written. */
    function Of(n: nat): (k: nat)
      ensures k <= n
    {
      WordAtMost(Form().Type().bits, n);
      ToWord(Form().Type().bits, n)
    }
  }

  lemma WordAtMost(bits: nat, n: nat)
    ensures ToWord(bits, n) <= n
  {
    var p := Pow2(bits);
    if n < p { SmallMod(n, p); }
  }

  /** What tells whether an item is there at all, and whether it is a shield. */
  datatype ItemKey = ByNumber | ByName

  datatype Shape =
    | Nothing
    | Num(form: Form, go: Int)                                  // go is the type of the field: IntegerFunc where it differs
    | Txt                                                       // String and ByteSlice
    | ShortTxt                                                  // StringUTF
    | Pair(first: Shape, second: Shape)
    | Slice(count: Counter, element: Shape)
    | Union(tag: Tagging, cases: seq<Shape>)
    | Unless(tag: Tagging, blank: Val, element: Shape)          // a field left out when it is blank
    | Store                                                     // a data store value, which holds others
    | Compound                                                  // network NBT
    | Item(key: ItemKey, head: Shape, lists: Shape)             // a head, and the user data behind its length

  datatype Val =
    | Unit
    | Integer(n: int)
    | Str(s: Bytes)
    | Both(a: Val, b: Val)
    | Many(xs: seq<Val>)
    | Case(k: int, v: Val)
    | Tags(entries: seq<Nbt.Entry>)
    | Stack(front: Val, nbt: seq<Nbt.Entry>, permits: Val, tick: int)

  function Plain(form: Form): Shape { Num(form, form.Type()) }

  const FLAG := Union(Boolean, [Nothing, Nothing])

  function Optional(e: Shape): Shape { Union(Boolean, [Nothing, e]) }

  /** MarshalDataStorePropertyValue: nothing, a bool, an int64, a float64, a string, a list or a map of data store values. */
  const STORE_CASES: seq<Shape> :=
    [Nothing, FLAG, Plain(Fixed(Eight, true)), Plain(Fixed(Eight, false)), Txt,
     Slice(VarCount, Store), Slice(VarCount, Pair(Txt, Store))]

  /** Whether a field is left out: its value is blank, or the name in it is. */
  predicate Absent(v: Val, blank: Val)
  {
    if v.Both? && blank.Both? then v.a == blank.a else v == blank
  }

  const SHIELD: Bytes :=
    [0x6D, 0x69, 0x6E, 0x65, 0x63, 0x72, 0x61, 0x66, 0x74, 0x3A, 0x73, 0x68, 0x69, 0x65, 0x6C, 0x64]

  /** limitsEnabled, the ID of the shield item, and the byte order of the host. */
  datatype Settings = Settings(limits: bool, shield: int, host: Order) {
    function Nested(): NbtFormat.Format { NbtFormat.Format(NbtFormat.LittleEndian, host) }
    function Network(): NbtFormat.Format { NbtFormat.Format(NbtFormat.NetworkLittleEndian, host) }

    predicate Shielded(key: ItemKey, front: Val)
    {
      front.Both? && if key.ByNumber? then front.a == Integer(shield) else front.a.Both? && front.a.a == Str(SHIELD)
    }
  }

  predicate Present(key: ItemKey, front: Val)
  {
    !(front.Both? && if key.ByNumber? then front.a == Integer(0) else front.a.Both? && front.a.a == Str([]))
  }

  /** A value of the Go type behind a shape. */
  predicate Fits(s: Shape, v: Val)
    decreases v, s
  {
    match s
    case Nothing => v.Unit?
    case Num(_, go) => v.Integer? && go.Has(v.n)
    case Txt => v.Str?
    case ShortTxt => v.Str? && |v.s| <= 0x7FFF
    case Pair(a, b) => v.Both? && Fits(a, v.a) && Fits(b, v.b)
    case Slice(_, e) => v.Many? && forall i | 0 <= i < |v.xs| :: Fits(e, v.xs[i])
    case Union(tag, cases) =>
      v.Case? && tag.Fits(|cases|) && if 0 <= v.k < |cases| then Fits(cases[v.k], v.v) else !tag.Boolean?
    case Unless(_, _, e) => Fits(e, v)
    case Store => v.Case? && (0 <= v.k < 7 ==> Fits(STORE_CASES[v.k], v.v))
    case Compound => v.Tags? && Nbt.Sound(Nbt.Struct(v.entries))
    case Item(_, head, lists) =>
      && v.Stack? && Fits(head, v.front) && Fits(lists, v.permits) && I64.Has(v.tick)
      && Nbt.Sound(Nbt.Struct(v.nbt))
  }

  // ------------------------------------------------------------------- writing

  function Enc(c: Settings, s: Shape, v: Val): Encoded
    requires Fits(s, v)
    decreases v, s
  {
    match s
    case Nothing => Wrote([])
    case Num(form, _) => Wrote(EncForm(form, v.n))
    case Txt => Wrote(Text(v.s))
    case ShortTxt => Wrote(ShortText(v.s))
    case Pair(a, b) => Nbt.Then(Enc(c, a, v.a), Enc(c, b, v.b))
    case Slice(count, e) =>
      Nbt.Then(Wrote(EncForm(count.Form(), |v.xs|)), EncSome(c, e, v.xs, count.Of(|v.xs|)))
    case Union(tag, cases) =>
      if 0 <= v.k < |cases| then Nbt.Then(Wrote(TagBytes(tag, v.k)), Enc(c, cases[v.k], v.v))
      else Refused(UnknownOption)
    case Unless(tag, blank, e) =>
      if Absent(v, blank) then Wrote(TagBytes(tag, 0)) else Nbt.Then(Wrote(TagBytes(tag, 1)), Enc(c, e, v))
    case Store =>
      if 0 <= v.k < 7 then Nbt.Then(Wrote(TagBytes(Word, v.k)), Enc(c, STORE_CASES[v.k], v.v))
      else Refused(UnknownOption)
    case Compound => Nbt.Encode(c.Network(), Nbt.Struct(v.entries))
    case Item(key, head, lists) =>
      Nbt.Then(Enc(c, head, v.front), if Present(key, v.front) then Boxed(EncUser(c, key, lists, v)) else Wrote(Text([])))
  }

  /** The first n elements of a slice. */
  function EncSome(c: Settings, e: Shape, xs: seq<Val>, n: nat): Encoded
    requires n <= |xs| && forall i | 0 <= i < |xs| :: Fits(e, xs[i])
    decreases xs, e, 1
  {
    if n == 0 then Wrote([]) else Nbt.Then(Enc(c, e, xs[0]), EncSome(c, e, xs[1..], n - 1))
  }

  /** Behind the length of a byte slice. */
  function Boxed(e: Encoded): Encoded
  {
    match e
    case Wrote(b) => Wrote(Text(b))
    case Refused(error) => Refused(error)
  }

  const TICK := Fixed(Eight, true)

  /** The compound of an item: a zero length for none, or the length -1, a version and little-endian NBT. */
  function EncNested(c: Settings, es: seq<Nbt.Entry>): Encoded
  {
    if es == [] then Wrote(EncForm(Fixed(Two, true), 0))
    else Nbt.Then(Wrote(EncForm(Fixed(Two, true), -1) + [1]), Nbt.Encode(c.Nested(), Nbt.Struct(es)))
  }

  function EncTick(c: Settings, key: ItemKey, v: Val): Encoded
    requires v.Stack?
  {
    Wrote(if c.Shielded(key, v.front) then EncForm(TICK, v.tick) else [])
  }

  /** The nested buffer of an item's user data. */
  function EncUser(c: Settings, key: ItemKey, lists: Shape, v: Val): Encoded
    requires v.Stack? && Fits(lists, v.permits)
    decreases v, lists, 1
  {
    Nbt.Then(EncNested(c, v.nbt), Nbt.Then(Enc(c, lists, v.permits), EncTick(c, key, v)))
  }

  // ------------------------------------------------------- what is read back

  const NO_PERMITS := Both(Many([]), Many([]))

  /**
   * The value as it is read back: numbers converted to the wire type and back, compounds in the form NBT comes back in,
   * and without what a writer leaves out.
   */
  function Canon(c: Settings, s: Shape, v: Val): Val
    requires Fits(s, v)
    decreases v, s
  {
    match s
    case Num(form, go) => Integer(go.Of(form.Type().Of(v.n)))
    case Pair(a, b) => Both(Canon(c, a, v.a), Canon(c, b, v.b))
    case Slice(count, e) => Many(CanonSome(c, e, v.xs, count.Of(|v.xs|)))
    case Union(_, cases) => if 0 <= v.k < |cases| then Case(v.k, Canon(c, cases[v.k], v.v)) else v
    case Unless(_, blank, e) => if Absent(v, blank) then blank else Canon(c, e, v)
    case Store => if 0 <= v.k < 7 then Case(v.k, Canon(c, STORE_CASES[v.k], v.v)) else v
    case Compound => Tags(NbtRoundTrip.RawEntries(v.entries))
    case Item(key, head, lists) =>
      var front := Canon(c, head, v.front);
      if !Present(key, v.front) then Stack(front, [], NO_PERMITS, 0)
      else Stack(front, NbtRoundTrip.RawEntries(v.nbt), Canon(c, lists, v.permits),
                 if c.Shielded(key, v.front) && c.Shielded(key, front) then v.tick else 0)
    case _ => v
  }

  function CanonSome(c: Settings, e: Shape, xs: seq<Val>, n: nat): (r: seq<Val>)
    requires n <= |xs| && forall i | 0 <= i < |xs| :: Fits(e, xs[i])
    ensures |r| == n
    decreases xs, e, 1
  {
    if n == 0 then [] else [Canon(c, e, xs[0])] + CanonSome(c, e, xs[1..], n - 1)
  }

  function Length(e: Encoded): nat { if e.Wrote? then |e.bytes| else 0 }

  const MAX_SLICE := 1024

  /** SliceLength: the count is refused above 1024 with limits on, and above the bytes that are left. */
  predicate TooMany(c: Settings, count: Counter, n: nat, left: nat)
  {
    count != UncheckedCount && (n > left || (c.limits && n > MAX_SLICE))
  }

  function First(a: Option<Error>, b: Option<Error>): Option<Error>
  {
    if a.Some? then a else b
  }

  function Stops(f: NbtFormat.Format, es: seq<Nbt.Entry>): Option<Error>
  {
    match NbtRoundTrip.WalkRoot(f, Nbt.Struct(es))
    case At(_) => None
    case Stopped(e) => Some(e)
  }

  /**
   * Why a reader refuses what was written for v, if it does, when so many bytes follow it: a count SliceLength does not
   * let through, an NBT limit, or a shield that only the reader takes for one.
   */
  function Verdict(c: Settings, s: Shape, v: Val, after: nat): Option<Error>
    requires Fits(s, v)
    decreases v, s
  {
    match s
    case Pair(a, b) => First(Verdict(c, a, v.a, Length(Enc(c, b, v.b)) + after), Verdict(c, b, v.b, after))
    case Slice(count, e) =>
      var n := count.Of(|v.xs|);
      if TooMany(c, count, n, Length(EncSome(c, e, v.xs, n)) + after) then Some(SliceTooLong)
      else VerdictSome(c, e, v.xs, n, after)
    case Union(_, cases) => if 0 <= v.k < |cases| then Verdict(c, cases[v.k], v.v, after) else None
    case Unless(_, blank, e) => if Absent(v, blank) then None else Verdict(c, e, v, after)
    case Store => if 0 <= v.k < 7 then Verdict(c, STORE_CASES[v.k], v.v, after) else None
    case Compound => Stops(c.Network(), v.entries)
    case Item(key, head, lists) =>
      if !Present(key, v.front) then Verdict(c, head, v.front, |Text([])| + after)
      else
        First(Verdict(c, head, v.front, Length(Boxed(EncUser(c, key, lists, v))) + after),
              VerdictUser(c, key, head, lists, v))
    case _ => None
  }

  function VerdictUser(c: Settings, key: ItemKey, head: Shape, lists: Shape, v: Val): Option<Error>
    requires v.Stack? && Fits(head, v.front) && Fits(lists, v.permits)
    decreases v, lists, head, 1
  {
    First(if v.nbt == [] then None else Stops(c.Nested(), v.nbt),
          First(Verdict(c, lists, v.permits, Length(EncTick(c, key, v))),
                ShieldMistaken(c, key, Canon(c, head, v.front), v.front)))
  }

  /** A head that is not a shield's when written, but is when read back: the reader misses the tick. */
  function ShieldMistaken(c: Settings, key: ItemKey, read: Val, written: Val): Option<Error>
  {
    if c.Shielded(key, read) && !c.Shielded(key, written) then Some(Overrun) else None
  }

  function VerdictSome(c: Settings, e: Shape, xs: seq<Val>, n: nat, after: nat): Option<Error>
    requires n <= |xs| && forall i | 0 <= i < |xs| :: Fits(e, xs[i])
    decreases xs, e, 1
  {
    if n == 0 then None
    else First(Verdict(c, e, xs[0], Length(EncSome(c, e, xs[1..], n - 1)) + after),
               VerdictSome(c, e, xs[1..], n - 1, after))
  }
}
