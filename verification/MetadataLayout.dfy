/** Entity metadata as Go has it, and as bytes: every value with its type, by increasing key. */
module MetadataLayout {
  import opened Wire
  import opened Varints
  import opened WordBytes
  import opened Fields
  import opened Shapes
  import opened ShapeReading
  import opened ShapeRoundTrip
  import opened ShapeLimits
  import opened Layouts
  import opened Items
  import opened ItemLayout
  import opened Metadata
  import Nbt = NbtTree
  import NbtFormat
  import NbtLayout
  import NbtRoundTrip
  import Actions
  import DataStores

  /** A value of an entity metadata map. Floats are bit patterns, and a compound comes with an order of its keys. */
  datatype MetaValue =
    | Byte(b: byte)
    | Int16(s: i16)
    | Int32(n: i32)
    | Float32(bits: u32)
    | Text(bytes: Bytes)
    | Compound(entries: seq<Nbt.Entry>)
    | Position(x: i32, y: i32, z: i32)
    | Int64(l: i64)
    | Vector(vx: u32, vy: u32, vz: u32)
  {
    predicate Valid()
    {
      Compound? ==> Nbt.Sound(Nbt.Struct(entries)) && NbtLayout.Small(0, Nbt.Struct(entries))
    }
    function ToVal(): Val
    {
      match this
      case Byte(b) => Case(0, Integer(b))
      case Int16(s) => Case(1, Integer(s))
      case Int32(n) => Case(2, Integer(n))
      case Float32(bits) => Case(3, Integer(bits))
      case Text(bytes) => Case(4, Str(bytes))
      case Compound(entries) => Case(5, Tags(entries))
      case Position(x, y, z) => Case(6, Both(Integer(x), Both(Integer(y), Integer(z))))
      case Int64(l) => Case(7, Integer(l))
      case Vector(a, b, d) => Case(8, Both(Integer(a), Both(Integer(b), Integer(d))))
    }
    /** The type twice, and the value. */
    function Bytes(): Bytes
    {
      match this
      case Byte(b) => [0, 0] + [b]
      case Int16(s) => [1, 1] + LowBytes(2, s)
      case Int32(n) => [2, 2] + Varint(n)
      case Float32(bits) => [3, 3] + LowBytes(4, bits)
      case Text(bytes) => [4, 4] + (Varuint(|bytes|) + bytes)
      case Compound(entries) => [5, 5] + NbtLayout.Document(NbtFormat.NetworkLittleEndian, Nbt.Struct(entries))
      case Position(x, y, z) => [6, 6] + (Varint(x) + (Varint(y) + Varint(z)))
      case Int64(l) => [7, 7] + Varint(l)
      case Vector(a, b, d) => [8, 8] + (LowBytes(4, a) + (LowBytes(4, b) + LowBytes(4, d)))
    }
    /** The value as it is read back: a compound with its entries as NBT reads them. */
    function Read(): MetaValue
    {
      if Compound? then MetaValue.Compound(NbtRoundTrip.RawEntries(entries)) else this
    }
    predicate Readable(c: Settings) { Compound? ==> Stops(c.Network(), entries) == None }
    function Sent(c: Settings): Sending { Sending(Bytes(), Read().ToVal(), Readable(c)) }
  }

  lemma EchoedTag(k: nat)
    requires k < 9
    ensures TagBytes(Echoed, k) == [k, k]
  {
    assert [k] + [k] == [k, k];
  }

  lemma TypeSends(c: Settings, k: nat, v: Val, z: Sending)
    requires k < 9 && Sends(c, VALUES[k], v, z)
    ensures Sends(c, VALUE, Case(k, v), Sending([k, k] + z.bytes, Case(k, z.back), z.within))
  {
    hide Sends;
    EchoedTag(k);
    CaseSends(c, Echoed, VALUES, k, v, z);
  }

  lemma FloatSends(c: Settings, bits: u32)
    ensures Sends(c, Plain(Fixed(Four, false)), Integer(bits), Sending(LowBytes(4, bits), Integer(bits), true))
  {
    Ranges(0, 0, 0, bits);
    SameFixedSends(c, Four, false, U32, bits);
  }

  lemma ShortSends(c: Settings, x: i16)
    ensures Sends(c, Plain(Fixed(Two, true)), Integer(x), Sending(LowBytes(2, x), Integer(x), true))
  {
    Ranges(0, x, 0, 0);
    SameFixedSends(c, Two, true, I16, x);
  }

  /** Three numbers of one form. */
  lemma TripleSends(c: Settings, form: Form, x: int, y: int, z: int, p: Bytes, q: Bytes, r: Bytes)
    requires Sends(c, Plain(form), Integer(x), Sending(p, Integer(x), true))
    requires Sends(c, Plain(form), Integer(y), Sending(q, Integer(y), true))
    requires Sends(c, Plain(form), Integer(z), Sending(r, Integer(z), true))
    ensures var v := Both(Integer(x), Both(Integer(y), Integer(z)));
      Sends(c, Pair(Plain(form), Pair(Plain(form), Plain(form))), v, Sending(p + (q + r), v, true))
  {
    hide Sends;
    PairSends(c, Plain(form), Plain(form), Integer(y), Integer(z), Sending(q, Integer(y), true), Sending(r, Integer(z), true));
    PairSends(c, Plain(form), Pair(Plain(form), Plain(form)), Integer(x), Both(Integer(y), Integer(z)),
              Sending(p, Integer(x), true), Sending(q + r, Both(Integer(y), Integer(z)), true));
  }

  lemma LongSends(c: Settings, l: i64)
    ensures Sends(c, Plain(Var(W64, true)), Integer(l), Sending(Varint(l), Integer(l), true))
  {
    Pow2Values();
    OfHas(I64, l);
  }

  lemma CompoundSends(c: Settings, entries: seq<Nbt.Entry>)
    requires Nbt.Sound(Nbt.Struct(entries)) && NbtLayout.Small(0, Nbt.Struct(entries))
    ensures Sends(c, Shape.Compound, Tags(entries),
                  Sending(NbtLayout.Document(NbtFormat.NetworkLittleEndian, Nbt.Struct(entries)),
                          Tags(NbtRoundTrip.RawEntries(entries)), Stops(c.Network(), entries) == None))
  {
    hide NbtLayout.Document, NbtRoundTrip.RawEntries, Stops, Nbt.Sound, Nbt.Encode;
    NbtLayout.DocumentWritten(c.Network(), Nbt.Struct(entries));
  }

  lemma TriplesSend(c: Settings, v: MetaValue)
    requires v.Position? || v.Vector?
    ensures Sends(c, VALUE, v.ToVal(), v.Sent(c))
  {
    hide Sends, Stops, NbtLayout.Document, NbtRoundTrip.RawEntries;
    match v
    case Position(x, y, z) =>
      SignedSends(c, x);
      SignedSends(c, y);
      SignedSends(c, z);
      TripleSends(c, VARINT32, x, y, z, Varint(x), Varint(y), Varint(z));
      TypeSends(c, 6, v.ToVal().v, Sending(Varint(x) + (Varint(y) + Varint(z)), v.ToVal().v, true));
    case Vector(a, b, d) =>
      FloatSends(c, a);
      FloatSends(c, b);
      FloatSends(c, d);
      TripleSends(c, Fixed(Four, false), a, b, d, LowBytes(4, a), LowBytes(4, b), LowBytes(4, d));
      TypeSends(c, 8, v.ToVal().v, Sending(LowBytes(4, a) + (LowBytes(4, b) + LowBytes(4, d)), v.ToVal().v, true));
    case _ =>
  }

  /** What every value is sent as, and what a reader makes of it. */
  lemma ValueSends(c: Settings, v: MetaValue)
    requires v.Valid()
    ensures Sends(c, VALUE, v.ToVal(), v.Sent(c))
  {
    hide Sends, Stops, NbtLayout.Document, NbtRoundTrip.RawEntries, Varint, Varuint, LowBytes;
    match v
    case Byte(b) =>
      ByteSends(c, b);
      TypeSends(c, 0, Integer(b), Sending([b], Integer(b), true));
    case Int16(s) =>
      ShortSends(c, s);
      TypeSends(c, 1, Integer(s), Sending(LowBytes(2, s), Integer(s), true));
    case Int32(n) =>
      SignedSends(c, n);
      TypeSends(c, 2, Integer(n), Sending(Varint(n), Integer(n), true));
    case Float32(bits) =>
      FloatSends(c, bits);
      TypeSends(c, 3, Integer(bits), Sending(LowBytes(4, bits), Integer(bits), true));
    case Text(bytes) =>
      TextSends(c, bytes);
      TypeSends(c, 4, Str(bytes), Sending(Varuint(|bytes|) + bytes, Str(bytes), true));
    case Compound(entries) =>
      CompoundSends(c, entries);
      TypeSends(c, 5, Tags(entries),
                Sending(NbtLayout.Document(NbtFormat.NetworkLittleEndian, Nbt.Struct(entries)),
                        Tags(NbtRoundTrip.RawEntries(entries)), Stops(c.Network(), entries) == None));
    case Int64(l) =>
      LongSends(c, l);
      TypeSends(c, 7, Integer(l), Sending(Varint(l), Integer(l), true));
    case _ => TriplesSend(c, v);
  }

  // ------------------------------------------------------------------------ maps

  type MetaMap = map<u32, MetaValue>

  predicate ValidMap(m: MetaMap)
  {
    |m| < 0x1_0000_0000 && forall k | k in m :: m[k].Valid()
  }

  function DataOf(m: MetaMap): Data { map k | k in m :: m[k].ToVal() }

  /** The map as it is read back. */
  function ReadMap(m: MetaMap): MetaMap { map k | k in m :: m[k].Read() }

  /** The entries of some keys, one after the other: the key, and the value behind its type. */
  function EntriesBytes(m: MetaMap, ks: seq<u32>): Bytes
    requires forall i | 0 <= i < |ks| :: ks[i] in m
  {
    if ks == [] then [] else (Varuint(ks[0]) + m[ks[0]].Bytes()) + EntriesBytes(m, ks[1..])
  }

  lemma SameKeys(m: MetaMap)
    ensures |DataOf(m)| == |m|
  {
    assert DataOf(m).Keys == m.Keys;
  }

  lemma DataIsValid(m: MetaMap)
    requires ValidMap(m)
    ensures Metadata.Valid(DataOf(m))
  {
    hide MetaValue.ToVal, Supported, MetaValue.Valid;
    SameKeys(m);
    forall k | k in m ensures Supported(DataOf(m)[k]) {
      SupportedValue(m[k]);
    }
  }

  lemma SupportedValue(v: MetaValue)
    requires v.Valid()
    ensures Supported(v.ToVal())
  {
    hide MetaValue.Sent, MetaValue.ToVal, MetaValue.Valid;
    ValueSends(Settings(true, 0, Order.Little), v);
  }

  lemma EntrySends(c: Settings, k: u32, v: MetaValue)
    requires v.Valid()
    ensures Sends(c, ENTRY, Both(Integer(k), v.ToVal()),
                  Sending(Varuint(k) + v.Bytes(), Both(Integer(k), v.Read().ToVal()), v.Readable(c)))
  {
    hide Sends, MetaValue.ToVal, MetaValue.Bytes, MetaValue.Read, MetaValue.Readable, MetaValue.Valid;
    ValueSends(c, v);
    UnsignedSends(c, k);
    PairSends(c, Plain(VARUINT32), VALUE, Integer(k), v.ToVal(), Sending(Varuint(k), Integer(k), true), v.Sent(c));
  }

  lemma EntryIsSent(c: Settings, m: MetaMap, k: u32)
    requires ValidMap(m) && k in m && Metadata.Valid(DataOf(m))
    ensures EntryBytes(c, DataOf(m), k) == Wrote(Varuint(k) + m[k].Bytes())
  {
    hide MetaValue.ToVal, MetaValue.Bytes, MetaValue.Read, MetaValue.Readable, Supported, Enc, Fits, Canon, Within;
    EntrySends(c, k, m[k]);
  }

  lemma {:induction false} PendingIsSent(c: Settings, m: MetaMap, ks: seq<u32>)
    requires ValidMap(m) && Metadata.Valid(DataOf(m)) && forall i | 0 <= i < |ks| :: ks[i] in m
    ensures Pending(c, DataOf(m), ks) == Wrote(EntriesBytes(m, ks))
  {
    if ks == [] {
    } else {
      hide Pending, EntryBytes, ValidMap, Metadata.Valid, MetaValue.Bytes;
      EntryIsSent(c, m, ks[0]);
      PendingOpens(c, DataOf(m), ks, 0);
      assert ks[0..] == ks;
      PendingIsSent(c, m, ks[1..]);
    }
  }

  /**
   * Every map is written as the number of its entries and the entries by increasing key, in whatever order its keys are
   * visited.
   */
  lemma MapLayout(c: Settings, m: MetaMap, ks: seq<u32>, order: seq<u32>)
    requires ValidMap(m) && Enumerates(ks, DataOf(m)) && Enumerates(order, DataOf(m))
    requires forall i, j | 0 <= i < j < |order| :: order[i] < order[j]
    ensures Metadata.Valid(DataOf(m)) && Write(c, DataOf(m), ks) == Wrote(Varuint(|m|) + EntriesBytes(m, order))
  {
    DataIsValid(m);
    SortedIs(DataOf(m), ks, order);
    SortedEnumerates(DataOf(m), ks);
    WriteIsPending(c, DataOf(m), ks);
    PendingIsSent(c, m, order);
    SameKeys(m);
    CountIs(|m|);
  }

  lemma CountIs(n: nat)
    requires n < 0x1_0000_0000
    ensures EncForm(VARUINT32, n) == Varuint(n)
  {
    ListCounts(n);
  }

  lemma SortedIs(m: Data, ks: seq<u32>, order: seq<u32>)
    requires Enumerates(ks, m) && Enumerates(order, m) && Increasing(order)
    ensures Sorted(ks) == order
  {
    SortedEnumerates(m, ks);
    AsManyKeys(ks, m);
    AsManyKeys(order, m);
    forall k ensures k in Sorted(ks) <==> k in order {
      if k in ks { assert k in m; }
      if k in order { assert k in m; }
    }
    OneIncreasingOrder(Sorted(ks), order);
  }

  // ---------------------------------------------------------- from values to Go values

  /** The Go value that a value read is. */
  function MetaIn(v: Val): MetaValue
  {
    var x := Actions.Inside(v);
    match if v.Case? then v.k else 0
    case 1 => Int16(Actions.I16In(x))
    case 2 => Int32(Actions.I32In(x))
    case 3 => Float32(Actions.U32In(x))
    case 4 => Text(StrIn(x))
    case 5 => MetaValue.Compound(if x.Tags? then x.entries else [])
    case 6 => Position(Actions.I32In(At(x, 0)), Actions.I32In(At(x, 1)), Actions.I32In(At(x, 2)))
    case 7 => Int64(DataStores.I64In(x))
    case 8 => Vector(Actions.U32In(At(x, 0)), Actions.U32In(At(x, 1)), Actions.U32In(At(x, 2)))
    case _ => Byte(Actions.ByteIn(x))
  }

  lemma LongIn(l: i64)
    ensures DataStores.I64In(Integer(l)) == l
  {
  }

  lemma MetaBack(v: MetaValue)
    ensures MetaIn(v.ToVal()) == v
  {
    hide Actions.ByteIn, Actions.I16In, Actions.I32In, Actions.U32In, DataStores.I64In;
    match v
    case Byte(b) => Actions.NumbersIn(b, 0, 0, 0);
    case Int16(s) => Actions.NumbersIn(0, s, 0, 0);
    case Int32(n) => Actions.NumbersIn(0, 0, n, 0);
    case Float32(bits) => Actions.NumbersIn(0, 0, 0, bits);
    case Position(x, y, z) =>
      Actions.NumbersIn(0, 0, x, 0);
      Actions.NumbersIn(0, 0, y, 0);
      Actions.NumbersIn(0, 0, z, 0);
    case Int64(l) => LongIn(l);
    case Vector(x, y, z) =>
      Actions.NumbersIn(0, 0, 0, x);
      Actions.NumbersIn(0, 0, 0, y);
      Actions.NumbersIn(0, 0, 0, z);
    case _ =>
  }

  function MapIn(d: Data): MetaMap { map k | k in d :: MetaIn(d[k]) }

  /** Reader.EntityMetadata, as the Go map. */
  function ReadMetaMap(c: Settings, i: In): Out<MetaMap>
    requires i.Valid()
  {
    match ReadData(c, i) case Bad(e) => Bad(e) case Got(d, left) => Got(MapIn(d), left)
  }

  lemma CanonOfMap(c: Settings, m: MetaMap)
    requires ValidMap(m) && Metadata.Valid(DataOf(m))
    ensures CanonData(c, DataOf(m)) == DataOf(ReadMap(m))
    ensures Readable(c, DataOf(m)) <==> forall k | k in m :: m[k].Readable(c)
  {
    hide MetaValue.ToVal, MetaValue.Bytes, MetaValue.Read, MetaValue.Readable, MetaValue.Valid, Canon, Within, Fits, Enc;
    forall k | k in m
      ensures Supported(DataOf(m)[k]) && Canon(c, VALUE, DataOf(m)[k]) == m[k].Read().ToVal()
      ensures ValueReadable(c, DataOf(m)[k]) <==> m[k].Readable(c)
    {
      SupportedValue(m[k]);
      ValueSends(c, m[k]);
    }
  }

  /** The bytes of a map are read as that map, whatever follows, or refused where the NBT decoder refuses a compound. */
  lemma MapIsRead(c: Settings, m: MetaMap, order: seq<u32>, t: Bytes, i: In)
    requires ValidMap(m) && Enumerates(order, DataOf(m)) && forall i, j | 0 <= i < j < |order| :: order[i] < order[j]
    requires Input(Wrote(Varuint(|m|) + EntriesBytes(m, order)), t, i)
    ensures if forall k | k in m :: m[k].Readable(c) then Back(ReadMetaMap(c, i), None, ReadMap(m), t, i)
            else ReadMetaMap(c, i).Bad?
  {
    hide ReadData, CanonData, Readable, Write, EntriesBytes, MetaValue.Readable, MetaIn, MetaValue.Read, MetaValue.ToVal, ValidMap;
    MapLayout(c, m, order, order);
    MetadataRoundTrip(c, DataOf(m), order, t, i);
    CanonOfMap(c, m);
    forall k | k in ReadMap(m) ensures MetaIn(ReadMap(m)[k].ToVal()) == ReadMap(m)[k] {
      MetaBack(ReadMap(m)[k]);
    }
    assert MapIn(DataOf(ReadMap(m))) == ReadMap(m);
  }
}
