/** Data store values as Go has them, and as bytes. */
module DataStores {
  import opened Wire
  import opened Varints
  import opened WordBytes
  import opened Fields
  import opened Shapes
  import opened ShapeReading
  import opened ShapeRoundTrip
  import opened ShapeLimits
  import opened Layouts
  import opened Items
  import opened ItemLayout

  /** DataStorePropertyValue, with the one field that its type tells. Doubles are bit patterns. */
  datatype StoreValue =
    | Empty
    | Bool(b: bool)
    | Int64(n: i64)
    | Double(bits: u64)
    | Text(s: Bytes)
    | List(xs: seq<StoreValue>)
    | Dictionary(es: seq<StoreEntry>)

  datatype StoreEntry = StoreEntry(key: Bytes, value: StoreValue)

  /** No list or map of more elements than a uint32 counts. */
  predicate Counted(v: StoreValue)
  {
    match v
    case List(xs) => |xs| < 0x1_0000_0000 && forall i | 0 <= i < |xs| :: Counted(xs[i])
    case Dictionary(es) => |es| < 0x1_0000_0000 && forall i | 0 <= i < |es| :: Counted(es[i].value)
    case _ => true
  }

  /** What a reader's limits ask: at most 1024 elements in every list and map. */
  predicate Readable(c: Settings, v: StoreValue)
  {
    match v
    case List(xs) => (c.limits ==> |xs| <= 1024) && forall i | 0 <= i < |xs| :: Readable(c, xs[i])
    case Dictionary(es) => (c.limits ==> |es| <= 1024) && forall i | 0 <= i < |es| :: Readable(c, es[i].value)
    case _ => true
  }

  /** The type in four bytes, and the value. */
  function StoreBytes(v: StoreValue): Bytes
    decreases v, 0
  {
    match v
    case Empty => [0, 0, 0, 0]
    case Bool(b) => [1, 0, 0, 0] + [if b then 1 else 0]
    case Int64(n) => [2, 0, 0, 0] + LowBytes(8, n)
    case Double(bits) => [3, 0, 0, 0] + LowBytes(8, bits)
    case Text(s) => [4, 0, 0, 0] + (Varuint(|s|) + s)
    case List(xs) => [5, 0, 0, 0] + (Varuint(|xs|) + ListBytes(xs))
    case Dictionary(es) => [6, 0, 0, 0] + (Varuint(|es|) + EntriesBytes(es))
  }

  function ListBytes(xs: seq<StoreValue>): Bytes
    decreases xs, 1
  {
    if xs == [] then [] else StoreBytes(xs[0]) + ListBytes(xs[1..])
  }

  function EntriesBytes(es: seq<StoreEntry>): Bytes
    decreases es, 1
  {
    if es == [] then [] else ((Varuint(|es[0].key|) + es[0].key) + StoreBytes(es[0].value)) + EntriesBytes(es[1..])
  }

  function StoreVal(v: StoreValue): Val
    decreases v, 0
  {
    match v
    case Empty => Case(0, Unit)
    case Bool(b) => Case(1, Case(if b then 1 else 0, Unit))
    case Int64(n) => Case(2, Integer(n))
    case Double(bits) => Case(3, Integer(bits))
    case Text(s) => Case(4, Str(s))
    case List(xs) => Case(5, Many(StoreVals(xs)))
    case Dictionary(es) => Case(6, Many(EntryVals(es)))
  }

  function StoreVals(xs: seq<StoreValue>): (r: seq<Val>)
    ensures |r| == |xs|
    decreases xs, 1
  {
    if xs == [] then [] else [StoreVal(xs[0])] + StoreVals(xs[1..])
  }

  function EntryVals(es: seq<StoreEntry>): (r: seq<Val>)
    ensures |r| == |es|
    decreases es, 1
  {
    if es == [] then [] else [Both(Str(es[0].key), StoreVal(es[0].value))] + EntryVals(es[1..])
  }

  function Sent(c: Settings, v: StoreValue): Sending { Sending(StoreBytes(v), StoreVal(v), Readable(c, v)) }

  function EntrySent(c: Settings, e: StoreEntry): Sending
  {
    Sending((Varuint(|e.key|) + e.key) + StoreBytes(e.value), Both(Str(e.key), StoreVal(e.value)), Readable(c, e.value))
  }

  lemma WordTag(k: nat)
    requires k < 7
    ensures TagBytes(Word, k) == [k, 0, 0, 0]
  {
    Pow2Values();
    SmallMod(k, Pow2(32));
    assert LittleBytes(4, k) == [k] + LittleBytes(3, 0) && LittleBytes(3, 0) == [0] + LittleBytes(2, 0);
    assert LittleBytes(2, 0) == [0] + LittleBytes(1, 0) && LittleBytes(1, 0) == [0];
  }

  lemma TypeSends(c: Settings, k: nat, v: Val, z: Sending)
    requires k < 7 && Sends(c, STORE_CASES[k], v, z)
    ensures Sends(c, Store, Case(k, v), Sending([k, 0, 0, 0] + z.bytes, Case(k, z.back), z.within))
  {
    WordTag(k);
    hide TagBytes;
  }

  lemma LongSends(c: Settings, signed: bool, go: Int, x: int)
    requires go == Int(64, signed) && go.Has(x)
    ensures Sends(c, Plain(Fixed(Eight, signed)), Integer(x), Sending(LowBytes(8, x), Integer(x), true))
  {
    SameFixedSends(c, Eight, signed, go, x);
  }

  lemma Ranges64(i: i64, u: u64)
    ensures I64.Has(i) && U64.Has(u)
  {
    Pow2Values();
  }

  lemma LeafSends(c: Settings, v: StoreValue)
    requires !v.List? && !v.Dictionary?
    ensures Sends(c, Store, StoreVal(v), Sent(c, v))
  {
    hide Sends;
    match v
    case Empty =>
      NothingSends(c);
      TypeSends(c, 0, Unit, Sending([], Unit, true));
      assert [0, 0, 0, 0] + [] == [0, 0, 0, 0];
    case Bool(b) =>
      BoolSends(c, b);
      TypeSends(c, 1, StoreVal(v).v, Sending([if b then 1 else 0], StoreVal(v).v, true));
    case Int64(n) =>
      Ranges64(n, 0);
      LongSends(c, true, I64, n);
      TypeSends(c, 2, Integer(n), Sending(LowBytes(8, n), Integer(n), true));
    case Double(bits) =>
      Ranges64(0, bits);
      LongSends(c, false, U64, bits);
      TypeSends(c, 3, Integer(bits), Sending(LowBytes(8, bits), Integer(bits), true));
    case Text(s) =>
      TextSends(c, s);
      TypeSends(c, 4, Str(s), Sending(Varuint(|s|) + s, Str(s), true));
    case _ =>
  }

  function ListSent(c: Settings, xs: seq<StoreValue>): (r: seq<Sending>)
    ensures |r| == |xs|
  {
    if xs == [] then [] else [Sent(c, xs[0])] + ListSent(c, xs[1..])
  }

  function EntriesSent(c: Settings, es: seq<StoreEntry>): (r: seq<Sending>)
    ensures |r| == |es|
  {
    if es == [] then [] else [EntrySent(c, es[0])] + EntriesSent(c, es[1..])
  }

  lemma {:induction false} ListJoins(c: Settings, xs: seq<StoreValue>)
    ensures Joined(ListSent(c, xs)) == ListBytes(xs) && Backs(ListSent(c, xs)) == StoreVals(xs)
    ensures (forall i | 0 <= i < |xs| :: ListSent(c, xs)[i].within) <==> forall i | 0 <= i < |xs| :: Readable(c, xs[i])
  {
    hide StoreBytes, StoreVal, Readable;
    if xs != [] {
      ListJoins(c, xs[1..]);
      var zs := ListSent(c, xs);
      assert zs[1..] == ListSent(c, xs[1..]);
      assert forall i | 1 <= i < |xs| :: zs[i] == zs[1..][i - 1] && xs[i] == xs[1..][i - 1];
    }
  }

  lemma {:induction false} EntriesJoin(c: Settings, es: seq<StoreEntry>)
    ensures Joined(EntriesSent(c, es)) == EntriesBytes(es) && Backs(EntriesSent(c, es)) == EntryVals(es)
    ensures (forall i | 0 <= i < |es| :: EntriesSent(c, es)[i].within) <==>
            forall i | 0 <= i < |es| :: Readable(c, es[i].value)
  {
    hide StoreBytes, StoreVal, Readable;
    if es != [] {
      EntriesJoin(c, es[1..]);
      var zs := EntriesSent(c, es);
      assert zs[1..] == EntriesSent(c, es[1..]);
      assert forall i | 1 <= i < |es| :: zs[i] == zs[1..][i - 1] && es[i] == es[1..][i - 1];
    }
  }

  /** What every value is sent as, however deep its lists and maps, and what a reader makes of it. */
  lemma {:induction false} StoreSends(c: Settings, v: StoreValue)
    requires Counted(v)
    ensures Sends(c, Store, StoreVal(v), Sent(c, v))
    decreases v, 0
  {
    hide Sends, Joined, Backs, ListBytes, EntriesBytes, ListSent, EntriesSent, StoreVals, EntryVals;
    match v
    case List(xs) =>
      ElementsSend(c, xs);
      ListSends(c, Store, StoreVals(xs), ListSent(c, xs));
      ListJoins(c, xs);
      TypeSends(c, 5, Many(StoreVals(xs)),
                Sending(Varuint(|xs|) + ListBytes(xs), Many(StoreVals(xs)), Readable(c, v)));
    case Dictionary(es) =>
      EntriesSend(c, es);
      ListSends(c, Pair(Txt, Store), EntryVals(es), EntriesSent(c, es));
      EntriesJoin(c, es);
      TypeSends(c, 6, Many(EntryVals(es)),
                Sending(Varuint(|es|) + EntriesBytes(es), Many(EntryVals(es)), Readable(c, v)));
    case _ => LeafSends(c, v);
  }

  lemma {:induction false} ElementsSend(c: Settings, xs: seq<StoreValue>)
    requires forall i | 0 <= i < |xs| :: Counted(xs[i])
    ensures AllSend(c, Store, StoreVals(xs), ListSent(c, xs))
    decreases xs, 1
  {
    hide Sends, Sent, StoreVal, Counted;
    if xs != [] {
      StoreSends(c, xs[0]);
      ElementsSend(c, xs[1..]);
    }
  }

  lemma {:induction false} EntriesSend(c: Settings, es: seq<StoreEntry>)
    requires forall i | 0 <= i < |es| :: Counted(es[i].value)
    ensures AllSend(c, Pair(Txt, Store), EntryVals(es), EntriesSent(c, es))
    decreases es, 1
  {
    hide Sends, StoreVal, StoreBytes, Readable, Counted;
    if es != [] {
      StoreSends(c, es[0].value);
      TextSends(c, es[0].key);
      PairSends(c, Txt, Store, Str(es[0].key), StoreVal(es[0].value),
                Sending(Varuint(|es[0].key|) + es[0].key, Str(es[0].key), true), Sent(c, es[0].value));
      EntriesSend(c, es[1..]);
    }
  }

  // ---------------------------------------------------------- from values to Go values

  function I64In(v: Val): i64
  {
    var u := IntIn(v) % 0x1_0000_0000_0000_0000;
    if u < 0x8000_0000_0000_0000 then u else u - 0x1_0000_0000_0000_0000
  }

  function U64In(v: Val): u64 { IntIn(v) % 0x1_0000_0000_0000_0000 }

  function StoreIn(v: Val): StoreValue
    decreases v, 0
  {
    if !v.Case? then Empty
    else if v.k == 1 then Bool(v.v.Case? && v.v.k == 1)
    else if v.k == 2 then Int64(I64In(v.v))
    else if v.k == 3 then Double(U64In(v.v))
    else if v.k == 4 then Text(StrIn(v.v))
    else if v.k == 5 && v.v.Many? then List(StoresIn(v.v.xs))
    else if v.k == 6 && v.v.Many? then Dictionary(EntriesIn(v.v.xs))
    else Empty
  }

  function StoresIn(vs: seq<Val>): seq<StoreValue>
    decreases vs, 1
  {
    if vs == [] then [] else [StoreIn(vs[0])] + StoresIn(vs[1..])
  }

  function EntriesIn(vs: seq<Val>): seq<StoreEntry>
    decreases vs, 1
  {
    if vs == [] then [] else [EntryIn(vs[0])] + EntriesIn(vs[1..])
  }

  function EntryIn(v: Val): StoreEntry
    decreases v, 1
  {
    if v.Both? then StoreEntry(StrIn(v.a), StoreIn(v.b)) else StoreEntry([], Empty)
  }

  lemma {:induction false} StoreBack(v: StoreValue)
    ensures StoreIn(StoreVal(v)) == v
    decreases v, 0
  {
    match v
    case List(xs) => ElementsBack(xs);
    case Dictionary(es) => EntriesBack(es);
    case _ =>
  }

  lemma {:induction false} ElementsBack(xs: seq<StoreValue>)
    ensures StoresIn(StoreVals(xs)) == xs
    decreases xs, 1
  {
    hide StoreIn, StoreVal;
    if xs != [] {
      StoreBack(xs[0]);
      ElementsBack(xs[1..]);
    }
  }

  lemma {:induction false} EntriesBack(es: seq<StoreEntry>)
    ensures EntriesIn(EntryVals(es)) == es
    decreases es, 1
  {
    hide StoreIn, StoreVal;
    if es != [] {
      StoreBack(es[0].value);
      EntriesBack(es[1..]);
    }
  }

  lemma StoreGrounded()
    ensures Grounded(Store)
  {
  }

  /** The bytes of a value are read as that value, or refused where a list or map has more than 1024 elements. */
  lemma StoreIsRead(c: Settings, v: StoreValue, t: Bytes, i: In)
    requires Counted(v) && Input(Wrote(StoreBytes(v)), t, i)
    ensures if Readable(c, v) then Back(Map(Dec(c, Store, i), StoreIn), None, v, t, i) else Dec(c, Store, i).Bad?
  {
    hide Dec, Sends, StoreBytes, StoreVal, StoreIn, Counted, Readable;
    StoreGrounded();
    StoreSends(c, v);
    SentIsRead(c, Store, StoreVal(v), Sent(c, v), t, i);
    StoreBack(v);
  }
}
