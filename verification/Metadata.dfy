/** Entity metadata: a map written by increasing key, and rebuilt entry by entry. */
module Metadata {
  import opened Wire
  import opened Varints
  import opened Fields
  import opened Shapes
  import opened ShapeReading
  import opened ShapeRoundTrip
  import opened ShapeLimits
  import opened ShapeKept
  import opened ShapeIO
  import Nbt = NbtTree

  /** The types of a value: byte, int16, int32, float32, string, compound, block position, int64 and vector. */
  const VALUES: seq<Shape> :=
    [Plain(OneByte), Plain(Fixed(Two, true)), Plain(VARINT32), Plain(Fixed(Four, false)), Txt, Compound,
     Pair(Plain(VARINT32), Pair(Plain(VARINT32), Plain(VARINT32))), Plain(Var(W64, true)),
     Pair(Plain(Fixed(Four, false)), Pair(Plain(Fixed(Four, false)), Plain(Fixed(Four, false))))]

  const VALUE := Union(Echoed, VALUES)
  const ENTRY := Pair(Plain(VARUINT32), VALUE)
  const ENTRIES := Slice(UncheckedCount, ENTRY)

  type Data = map<u32, Val>

  predicate Valid(m: Data)
  {
    |m| < 0x1_0000_0000 && forall k | k in m :: Supported(m[k])
  }

  /** A value of one of the nine types. */
  predicate Supported(v: Val)
  {
    Fits(VALUE, v)
  }

  /** No value is a compound the NBT decoder refuses. */
  predicate Readable(c: Settings, m: Data)
    requires Valid(m)
  {
    forall k | k in m :: ValueReadable(c, m[k])
  }

  predicate ValueReadable(c: Settings, v: Val)
    requires Supported(v)
  {
    Within(c, VALUE, v)
  }

  // ----------------------------------------------------------------- key order

  /** The keys of a map in the order a Go range visits them: any order. */
  predicate Enumerates(ks: seq<u32>, m: Data)
  {
    && (forall i | 0 <= i < |ks| :: ks[i] in m) && (forall k | k in m :: k in ks)
    && forall i, j | 0 <= i < j < |ks| :: ks[i] != ks[j]
  }

  predicate Increasing(ks: seq<u32>)
  {
    forall i, j | 0 <= i < j < |ks| :: ks[i] < ks[j]
  }

  function Insert(k: u32, ks: seq<u32>): (r: seq<u32>)
    ensures |r| == |ks| + 1 && forall x :: x in r <==> x == k || x in ks
  {
    if ks == [] then [k]
    else if k <= ks[0] then [k] + ks
    else [ks[0]] + Insert(k, ks[1..])
  }

  /** sort.Ints. */
  function Sorted(ks: seq<u32>): (r: seq<u32>)
    ensures |r| == |ks| && forall x :: x in r <==> x in ks
  {
    if ks == [] then [] else Insert(ks[0], Sorted(ks[1..]))
  }

  lemma {:induction false} InsertIncreases(k: u32, ks: seq<u32>)
    requires Increasing(ks) && k !in ks
    ensures Increasing(Insert(k, ks))
  {
    if ks != [] && k > ks[0] {
      InsertIncreases(k, ks[1..]);
      var r := Insert(k, ks[1..]);
      forall i | 0 <= i < |r| ensures ks[0] < r[i] {
        if r[i] != k { assert r[i] in ks[1..]; }
      }
    }
  }

  lemma {:induction false} SortedIncreases(ks: seq<u32>)
    requires forall i, j | 0 <= i < j < |ks| :: ks[i] != ks[j]
    ensures Increasing(Sorted(ks))
  {
    if ks != [] {
      SortedIncreases(ks[1..]);
      InsertIncreases(ks[0], Sorted(ks[1..]));
    }
  }

  lemma {:induction false} OneIncreasingOrder(a: seq<u32>, b: seq<u32>)
    requires |a| == |b| && Increasing(a) && Increasing(b) && forall k :: k in a <==> k in b
    ensures a == b
  {
    if a != [] {
      assert a[0] in b && b[0] in a;
      assert a[0] == b[0];
      assert forall k :: k in a[1..] <==> k in a && k != a[0];
      assert forall k :: k in b[1..] <==> k in b && k != b[0];
      OneIncreasingOrder(a[1..], b[1..]);
    }
  }

  // ------------------------------------------------------------ writing and reading

  function Entries(m: Data, ks: seq<u32>): (r: seq<Val>)
    requires forall i | 0 <= i < |ks| :: ks[i] in m
    ensures |r| == |ks| && forall i | 0 <= i < |ks| :: r[i] == Both(Integer(ks[i]), m[ks[i]])
  {
    if ks == [] then [] else [Both(Integer(ks[0]), m[ks[0]])] + Entries(m, ks[1..])
  }

  lemma EntriesFit(m: Data, ks: seq<u32>)
    requires Valid(m) && forall i | 0 <= i < |ks| :: ks[i] in m
    ensures Fits(ENTRIES, Many(Entries(m, ks)))
  {
    var xs := Entries(m, ks);
    forall i | 0 <= i < |ks| ensures Fits(ENTRY, xs[i]) {
      assert Supported(m[ks[i]]);
      EntryFits(ks[i], m[ks[i]]);
    }
    ListFits(xs);
  }

  lemma EntryFits(k: u32, v: Val)
    requires Supported(v)
    ensures Fits(ENTRY, Both(Integer(k), v))
  {
    Pow2Values();
  }

  lemma ListFits(xs: seq<Val>)
    requires forall i | 0 <= i < |xs| :: Fits(ENTRY, xs[i])
    ensures Fits(ENTRIES, Many(xs))
  {
  }

  lemma SortedEnumerates(m: Data, ks: seq<u32>)
    requires Enumerates(ks, m)
    ensures Enumerates(Sorted(ks), m) && Increasing(Sorted(ks))
  {
    SortedIncreases(ks);
    var order := Sorted(ks);
    forall i | 0 <= i < |order| ensures order[i] in m { assert order[i] in ks; }
  }

  /** Writer.EntityMetadata, when the map is ranged over in the order ks. */
  function Write(c: Settings, m: Data, ks: seq<u32>): Encoded
    requires Valid(m) && Enumerates(ks, m)
  {
    SortedEnumerates(m, ks);
    EntriesFit(m, Sorted(ks));
    Enc(c, ENTRIES, Many(Entries(m, Sorted(ks))))
  }

  /** The keys are written in strictly increasing order, and the bytes depend on the map alone. */
  lemma BytesDependOnTheMap(c: Settings, m: Data, ks: seq<u32>, ks': seq<u32>)
    requires Valid(m) && Enumerates(ks, m) && Enumerates(ks', m)
    ensures Increasing(Sorted(ks)) && Sorted(ks) == Sorted(ks')
    ensures Write(c, m, ks) == Write(c, m, ks')
  {
    SortedEnumerates(m, ks);
    SortedEnumerates(m, ks');
    forall k ensures k in Sorted(ks) <==> k in Sorted(ks') {
      if k in ks { assert k in m; }
      if k in ks' { assert k in m; }
    }
    AsManyKeys(ks, m);
    AsManyKeys(ks', m);
    OneIncreasingOrder(Sorted(ks), Sorted(ks'));
  }

  function KeyOf(v: Val): u32 { if v.Both? && v.a.Integer? then v.a.n % 0x1_0000_0000 else 0 }

  function ValueOf(v: Val): Val { if v.Both? then v.b else Unit }

  /** (*x)[key] = v for every entry read, in turn. */
  function Gather(xs: seq<Val>): Data
  {
    if xs == [] then map[] else Gather(xs[..|xs| - 1])[KeyOf(xs[|xs| - 1]) := ValueOf(xs[|xs| - 1])]
  }

  function ReadData(c: Settings, i: In): Out<Data>
    requires i.Valid()
  {
    match Dec(c, ENTRIES, i)
    case Bad(e) => Bad(e)
    case Got(v, left) => Got(if v.Many? then Gather(v.xs) else map[], left)
  }

  /** The map as it is read back. */
  function CanonData(c: Settings, m: Data): Data
    requires Valid(m)
  {
    map k | k in m :: assert Supported(m[k]); Canon(c, VALUE, m[k])
  }

  lemma {:induction false} Gathered(m: Data, ks: seq<u32>, xs: seq<Val>)
    requires |xs| == |ks| && forall i, j | 0 <= i < j < |ks| :: ks[i] != ks[j]
    requires forall i | 0 <= i < |ks| :: ks[i] in m && xs[i] == Both(Integer(ks[i]), m[ks[i]])
    ensures Gather(xs) == map k | k in m && k in ks :: m[k]
  {
    if ks != [] {
      var n := |ks| - 1;
      Gathered(m, ks[..n], xs[..n]);
      assert forall k :: k in ks <==> k in ks[..n] || k == ks[n];
    }
  }

  lemma {:induction false} CanonAt(c: Settings, e: Shape, xs: seq<Val>, n: nat, i: nat)
    requires i < n <= |xs| && forall k | 0 <= k < |xs| :: Fits(e, xs[k])
    ensures CanonSome(c, e, xs, n)[i] == Canon(c, e, xs[i])
  {
    hide Canon, Fits;
    if i > 0 { CanonAt(c, e, xs[1..], n - 1, i - 1); }
  }

  lemma {:induction false} WithinAll(c: Settings, e: Shape, xs: seq<Val>, n: nat)
    requires n <= |xs| && forall k | 0 <= k < |xs| :: Fits(e, xs[k])
    ensures WithinSome(c, e, xs, n) <==> forall k | 0 <= k < n :: Within(c, e, xs[k])
  {
    hide Within, Fits;
    if n > 0 {
      WithinAll(c, e, xs[1..], n - 1);
      assert forall k | 1 <= k < n :: xs[k] == xs[1..][k - 1];
    }
  }

  lemma EntryKept(c: Settings, k: u32, v: Val)
    requires Supported(v)
    ensures var e := Both(Integer(k), v);
      && Fits(ENTRY, e) && Canon(c, ENTRY, e) == Both(Integer(k), Canon(c, VALUE, v))
      && (Within(c, ENTRY, e) <==> ValueReadable(c, v))
  {
    Pow2Values();
    OfHas(U32, k);
  }

  lemma AsManyKeys(ks: seq<u32>, m: Data)
    requires Enumerates(ks, m)
    ensures |ks| == |m|
  {
    SameSize(ks, m.Keys);
  }

  lemma {:induction false} SameSize(ks: seq<u32>, s: set<u32>)
    requires (forall i | 0 <= i < |ks| :: ks[i] in s) && (forall k | k in s :: k in ks)
    requires forall i, j | 0 <= i < j < |ks| :: ks[i] != ks[j]
    ensures |ks| == |s|
  {
    if ks == [] {
      assert forall k | k in s :: k in ks;
      assert s == {};
    } else {
      assert forall k | k in s && k != ks[0] :: k in ks[1..];
      SameSize(ks[1..], s - {ks[0]});
    }
  }

  lemma MetadataGrounded()
    ensures Grounded(ENTRIES)
  {
    assert forall k | 0 <= k < |VALUES| :: Grounded(VALUES[k]);
    assert Grounded(VALUE) && Grounded(ENTRY);
  }

  lemma EntriesKept(c: Settings, m: Data, ks: seq<u32>)
    requires Valid(m) && Enumerates(ks, m)
    ensures var xs := Entries(m, ks);
      forall i | 0 <= i < |ks| ::
        && Fits(ENTRY, xs[i]) && Canon(c, ENTRY, xs[i]) == Both(Integer(ks[i]), CanonData(c, m)[ks[i]])
        && Supported(m[ks[i]]) && (Within(c, ENTRY, xs[i]) <==> ValueReadable(c, m[ks[i]]))
  {
    hide Canon, Within, Fits, ValueReadable, Supported;
    forall i | 0 <= i < |ks|
      ensures var x := Entries(m, ks)[i];
        && Fits(ENTRY, x) && Canon(c, ENTRY, x) == Both(Integer(ks[i]), CanonData(c, m)[ks[i]])
        && Supported(m[ks[i]]) && (Within(c, ENTRY, x) <==> ValueReadable(c, m[ks[i]]))
    {
      EntryKept(c, ks[i], m[ks[i]]);
    }
  }

  lemma CanonOfEntries(c: Settings, m: Data, ks: seq<u32>)
    requires Valid(m) && Enumerates(ks, m)
    ensures var v := Many(Entries(m, ks));
      && Fits(ENTRIES, v) && Canon(c, ENTRIES, v).Many? && Gather(Canon(c, ENTRIES, v).xs) == CanonData(c, m)
      && (Within(c, ENTRIES, v) <==> Readable(c, m))
  {
    hide Canon, Within, Fits, ValueReadable, Supported, Gather, CanonData, CanonSome, WithinSome;
    var xs := Entries(m, ks);
    AsManyKeys(ks, m);
    EntriesFit(m, ks);
    EntriesOpen(c, xs);
    EntriesKept(c, m, ks);
    EntriesGathered(c, m, ks, xs);
    WithinAll(c, ENTRY, xs, |xs|);
    KeysReadable(c, m, ks);
  }

  lemma EntriesGathered(c: Settings, m: Data, ks: seq<u32>, xs: seq<Val>)
    requires |xs| == |ks| && Valid(m) && Enumerates(ks, m) && forall i | 0 <= i < |xs| :: Fits(ENTRY, xs[i])
    requires forall i | 0 <= i < |xs| :: Canon(c, ENTRY, xs[i]) == Both(Integer(ks[i]), CanonData(c, m)[ks[i]])
    ensures Gather(CanonSome(c, ENTRY, xs, |xs|)) == CanonData(c, m)
  {
    hide Canon, Fits;
    var ys := CanonSome(c, ENTRY, xs, |xs|);
    forall i | 0 <= i < |ks| ensures ys[i] == Both(Integer(ks[i]), CanonData(c, m)[ks[i]]) {
      CanonAt(c, ENTRY, xs, |xs|, i);
    }
    Gathered(CanonData(c, m), ks, ys);
    assert forall k | k in CanonData(c, m) :: k in ks;
  }

  lemma KeysReadable(c: Settings, m: Data, ks: seq<u32>)
    requires Valid(m) && Enumerates(ks, m)
    requires forall i | 0 <= i < |ks| :: Supported(m[ks[i]])
    ensures (forall i | 0 <= i < |ks| :: ValueReadable(c, m[ks[i]])) <==> Readable(c, m)
  {
    hide ValueReadable, Supported;
    if forall i | 0 <= i < |ks| :: ValueReadable(c, m[ks[i]]) {
      forall k | k in m ensures ValueReadable(c, m[k]) {
        var i :| 0 <= i < |ks| && ks[i] == k;
      }
    }
  }

  lemma EntriesOpen(c: Settings, xs: seq<Val>)
    requires Fits(ENTRIES, Many(xs))
    ensures forall k | 0 <= k < |xs| :: Fits(ENTRY, xs[k])
    ensures |xs| < 0x1_0000_0000 ==> Canon(c, ENTRIES, Many(xs)) == Many(CanonSome(c, ENTRY, xs, |xs|))
    ensures |xs| < 0x1_0000_0000 ==> (Within(c, ENTRIES, Many(xs)) <==> WithinSome(c, ENTRY, xs, |xs|))
  {
    Pow2Values();
    if |xs| < 0x1_0000_0000 { SmallMod(|xs|, Pow2(32)); }
  }

  /**
   * Metadata round trip, for every map of supported values and every order in which its keys are visited: reading
   * rebuilds the map, with compounds in the form NBT comes back in, unless the NBT decoder refuses one of them.
   */
  lemma MetadataRoundTrip(c: Settings, m: Data, ks: seq<u32>, t: Bytes, i: In)
    requires Valid(m) && Enumerates(ks, m) && Input(Write(c, m, ks), t, i)
    ensures Readable(c, m) ==> Back(ReadData(c, i), None, CanonData(c, m), t, i)
    ensures !Readable(c, m) ==> ReadData(c, i).Bad?
  {
    hide Canon, Within, Fits, Enc, Dec, Grounded;
    var order := Sorted(ks);
    SortedEnumerates(m, ks);
    CanonOfEntries(c, m, order);
    MetadataGrounded();
    GroundedRoundTrip(c, ENTRIES, Many(Entries(m, order)), t, i);
  }

  /** A map without compounds is rebuilt as it was. */
  lemma PlainMetadata(c: Settings, m: Data)
    requires Valid(m) && forall k | k in m :: m[k].k != 5 && 0 <= m[k].k < 9
    ensures CanonData(c, m) == m && Readable(c, m)
  {
    forall k | k in m ensures Canon(c, VALUE, m[k]) == m[k] && ValueReadable(c, m[k]) {
      assert Supported(m[k]);
      PlainValue(c, m[k].k, m[k].v);
    }
  }

  lemma PlainValue(c: Settings, k: nat, v: Val)
    requires k < 9 && k != 5 && Fits(VALUES[k], v)
    ensures Canon(c, VALUE, Case(k, v)) == Case(k, v) && Within(c, VALUE, Case(k, v))
  {
    if k == 6 {
      TripleKept(c, VARINT32, v);
    } else if k == 8 {
      TripleKept(c, Fixed(Four, false), v);
    }
    LosslessIsKept(c, VALUES[k], v);
  }

  lemma TripleKept(c: Settings, form: Form, v: Val)
    requires Fits(Pair(Plain(form), Pair(Plain(form), Plain(form))), v)
    ensures Lossless(c, Pair(Plain(form), Pair(Plain(form), Plain(form))), v)
    ensures Within(c, Pair(Plain(form), Pair(Plain(form), Plain(form))), v)
  {
    PairKept(c, form, v.b);
  }

  lemma PairKept(c: Settings, form: Form, v: Val)
    requires Fits(Pair(Plain(form), Plain(form)), v)
    ensures Lossless(c, Pair(Plain(form), Plain(form)), v) && Within(c, Pair(Plain(form), Plain(form)), v)
  {
  }

  // ------------------------------------------------------------------ as it runs

  /** The entries of some keys, one after the other. */
  function Pending(c: Settings, m: Data, ks: seq<u32>): Encoded
    requires Valid(m) && forall i | 0 <= i < |ks| :: ks[i] in m
  {
    EntriesFit(m, ks);
    EntriesOpen(c, Entries(m, ks));
    EncSome(c, ENTRY, Entries(m, ks), |ks|)
  }

  lemma WriteIsPending(c: Settings, m: Data, ks: seq<u32>)
    requires Valid(m) && Enumerates(ks, m) && Enumerates(Sorted(ks), m)
    ensures Write(c, m, ks) == Nbt.Then(Wrote(EncForm(VARUINT32, |m|)), Pending(c, m, Sorted(ks)))
  {
    hide EncForm, Fits, Supported, Sorted;
    AsManyKeys(ks, m);
    Pow2Values();
    SmallMod(|ks|, Pow2(32));
  }

  function EntryBytes(c: Settings, m: Data, k: u32): Encoded
    requires Valid(m) && k in m
  {
    assert Supported(m[k]);
    EntryFits(k, m[k]);
    Enc(c, ENTRY, Both(Integer(k), m[k]))
  }

  lemma PendingOpens(c: Settings, m: Data, ks: seq<u32>, k: nat)
    requires Valid(m) && k < |ks| && forall i | 0 <= i < |ks| :: ks[i] in m
    ensures Pending(c, m, ks[k..]) == Nbt.Then(EntryBytes(c, m, ks[k]), Pending(c, m, ks[k + 1..]))
  {
    hide Enc, Fits;
    assert ks[k..][1..] == ks[k + 1..];
    assert Entries(m, ks[k..])[1..] == Entries(m, ks[k + 1..]);
  }

  /**
   * Writer.EntityMetadata: the keys are collected in any order, sorted, and written one after the other. What is written
   * is the same for every order of the keys.
   */
  method WriteMetadata(io: IO, m: Data) returns (r: Read<()>, ghost order: seq<u32>)
    requires io.Valid() && !io.reading && Valid(m)
    modifies io, io.buf, io.scratch
    ensures Enumerates(order, m) && io.Put(old(io.buf.data), Write(io.c, m, order), r, ())
  {
    hide Enc, Write, EntryBytes, Pending, Sorted, Enumerates, Supported;
    ghost var before := io.buf.data;
    var keys := Keys(m);
    order := keys;
    SortedEnumerates(m, keys);
    WriteIsPending(io.c, m, keys);
    keys := Sorted(keys);
    var n := io.Number(VARUINT32, |m|);
    r := WriteEntries(io, m, keys);
    Joined(before, EncForm(VARUINT32, |m|), Pending(io.c, m, keys));
  }

  method WriteEntries(io: IO, m: Data, keys: seq<u32>) returns (r: Read<()>)
    requires io.Valid() && !io.reading && Valid(m) && forall i | 0 <= i < |keys| :: keys[i] in m
    modifies io, io.buf, io.scratch
    ensures io.Put(old(io.buf.data), Pending(io.c, m, keys), r, ())
  {
    hide Enc, Fits, EntryBytes;
    assert keys[0..] == keys;
    for k := 0 to |keys|
      invariant Nbt.Then(Wrote(old(io.buf.data)), Pending(io.c, m, keys)) ==
                Nbt.Then(Wrote(io.buf.data), Pending(io.c, m, keys[k..]))
    {
      ghost var now := io.buf.data;
      PendingOpens(io.c, m, keys, k);
      r := WriteEntry(io, m, keys[k]);
      if r.Failed? { return; }
      ThenOne(now, EntryBytes(io.c, m, keys[k]).bytes, Pending(io.c, m, keys[k + 1..]));
    }
    AppendNothing(io.buf.data);
    r := Done(());
  }

  method WriteEntry(io: IO, m: Data, k: u32) returns (r: Read<()>)
    requires io.Valid() && !io.reading && Valid(m) && k in m
    modifies io, io.buf, io.scratch
    ensures io.Put(old(io.buf.data), EntryBytes(io.c, m, k), r, ())
  {
    assert Supported(m[k]);
    EntryFits(k, m[k]);
    var e := io.Marshal(ENTRY, Both(Integer(k), m[k]));
    r := if e.Done? then Done(()) else Failed(e.error);
  }

  method Keys(m: Data) returns (ks: seq<u32>)
    ensures Enumerates(ks, m)
  {
    var left := m.Keys;
    ks := [];
    while left != {}
      invariant left <= m.Keys
      invariant forall i | 0 <= i < |ks| :: ks[i] in m && ks[i] !in left
      invariant forall k | k in m && k !in left :: k in ks
      invariant forall i, j | 0 <= i < j < |ks| :: ks[i] != ks[j]
      decreases left
    {
      var k :| k in left;
      ks, left := ks + [k], left - {k};
    }
  }

  lemma EntryIsPair(c: Settings, i: In)
    requires i.Valid() && Dec(c, ENTRY, i).Got?
    ensures Dec(c, ENTRY, i).v.Both? && Dec(c, ENTRY, i).v.a.Integer?
  {
  }

  lemma GatherOne(read: seq<Val>, e: Val)
    ensures Gather(read + [e]) == Gather(read)[KeyOf(e) := ValueOf(e)]
  {
    assert (read + [e])[..|read|] == read;
  }

  function Gathering(r: Out<seq<Val>>): Out<Data>
  {
    match r case Bad(e) => Bad(e) case Got(xs, left) => Got(Gather(xs), left)
  }

  lemma ReadDataOpens(c: Settings, i: In)
    requires i.Valid()
    ensures var n := DecForm(VARUINT32, i);
      ReadData(c, i) == if n.Got? then Gathering(DecMany(c, ENTRY, n.v, n.left)) else Bad(n.error)
  {
    assert Dec(c, ENTRIES, i) == DecSlice(c, ENTRIES, i);
  }

  /** Reader.EntityMetadata: the map is filled entry by entry, and the count is not checked against what is left. */
  method ReadMetadata(io: IO) returns (r: Read<Data>)
    requires io.Valid() && io.reading
    modifies io, io.buf, io.scratch
    ensures io.Did(ReadData(io.c, old(io.View())), r)
  {
    hide Dec, ReadData;
    ReadDataOpens(io.c, io.View());
    var n := io.Number(VARUINT32, 0);
    if n.Failed? { return Failed(n.error); }
    ghost var start, read := io.View(), [];
    AfterNothing(DecMany(io.c, ENTRY, n.value, start));
    var m: Data := map[];
    for k := 0 to n.value
      invariant DecMany(io.c, ENTRY, n.value, start) == After(read, DecMany(io.c, ENTRY, n.value - k, io.View()))
      invariant m == Gather(read)
    {
      ghost var now := io.View();
      var e := io.Marshal(ENTRY, Unit);
      if e.Failed? { return Failed(e.error); }
      EntryIsPair(io.c, now);
      AfterOne(read, e.value, DecMany(io.c, ENTRY, n.value - k - 1, io.View()));
      GatherOne(read, e.value);
      m, read := m[KeyOf(e.value) := ValueOf(e.value)], read + [e.value];
    }
    assert read + [] == read;
    r := Done(m);
  }
}
