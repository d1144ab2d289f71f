/**
 * Which Go values are read back, said of the value: whatever order Go picks for the keys of its maps.
 *
 * The decoder's counter stands at the nesting plus the lists of bytes, ints and longs read so far. In the worst order all
 * siblings of a compound come before it, so the bound asks of every compound for its nesting, its own lists and those of
 * its siblings, and its ancestors' siblings, to stay below the limit.
 */
module NbtOrders {
  import opened Wire
  import opened Varints
  import opened NbtFormat
  import opened NbtTree
  import opened NbtDecode
  import opened NbtRoundTrip
  import opened NbtValues
  import opened NbtEncoder
  import NbtLayout

  // ------------------------------------------------------------------ sums over maps

  ghost function Pick(m: map<Bytes, nat>): (k: Bytes)
    requires m != map[]
    ensures k in m
  {
    assert m.Keys != {};
    var k :| k in m;
    k
  }

  ghost function Total(m: map<Bytes, nat>): nat
    decreases |m|
  {
    if m == map[] then 0
    else
      var k := Pick(m);
      assert (m - {k}).Keys == m.Keys - {k};
      m[k] + Total(m - {k})
  }

  /** The sum does not depend on the order in which it is taken. */
  lemma {:induction false} TotalTakes(m: map<Bytes, nat>, k: Bytes)
    requires k in m
    ensures Total(m) == m[k] + Total(m - {k})
    decreases |m|
  {
    var j := Pick(m);
    if j != k {
      assert (m - {j}).Keys == m.Keys - {j} && (m - {k}).Keys == m.Keys - {k};
      TotalTakes(m - {j}, k);
      TotalTakes(m - {k}, j);
      assert m - {j} - {k} == m - {k} - {j};
    }
  }

  lemma TotalAdds(m: map<Bytes, nat>, k: Bytes, x: nat)
    requires k !in m
    ensures Total(m[k := x]) == Total(m) + x
  {
    TotalTakes(m[k := x], k);
    assert m[k := x] - {k} == m;
  }

  // ----------------------------------------------------------- leaks and sizes of values

  /** How far reading a value raises the decoder's counter for good. */
  ghost function Leaks(v: Value): nat
    decreases v, 1
  {
    match v
    case Atom(leaf) => if leaf.TypedList() then 1 else 0
    case List(xs) => if TypedElement(VElementTag(xs)) then 1 else LeaksOf(xs)
    case Compound(m) => Total(LeakMap(m))
  }

  ghost function LeakMap(m: map<Bytes, Value>): map<Bytes, nat>
    decreases Compound(m), 0
  {
    map k | k in m :: Leaks(m[k])
  }

  ghost function LeaksOf(xs: seq<Value>): nat
    decreases xs, 0
  {
    if xs == [] then 0 else Leaks(xs[0]) + LeaksOf(xs[1..])
  }

  /** How many bytes the payload of a value takes. */
  ghost function Size(f: Format, v: Value): nat
    decreases v, 1
  {
    match v
    case Atom(leaf) => Length(EncLeaf(f, leaf))
    case List(xs) => 1 + |EncInt(f, W32, |xs|)| + SizeOf(f, xs)
    case Compound(m) => Total(SizeMap(f, m)) + 1
  }

  ghost function SizeMap(f: Format, m: map<Bytes, Value>): map<Bytes, nat>
    decreases Compound(m), 0
  {
    map k | k in m :: NameSize(f, k) + Size(f, m[k])
  }

  ghost function SizeOf(f: Format, xs: seq<Value>): nat
    decreases xs, 0
  {
    if xs == [] then 0 else Size(f, xs[0]) + SizeOf(f, xs[1..])
  }

  /** How many bytes a tag with a name takes. */
  function NameSize(f: Format, name: Bytes): nat { 1 + Length(EncString(f, name)) }

  /** Where in the payload of a value the last compound ends; nowhere if there is none. */
  ghost function LastEnd(f: Format, v: Value): (e: int)
    ensures e < Size(f, v)
  {
    match v
    case Atom(_) => -1
    case List(xs) =>
      var e := if TypedElement(VElementTag(xs)) then -1 else LastEndOf(f, xs);
      if e < 0 then -1 else 1 + |EncInt(f, W32, |xs|)| + e
    case Compound(_) => Size(f, v) - 1
  }

  ghost function LastEndOf(f: Format, xs: seq<Value>): (e: int)
    ensures e < SizeOf(f, xs) || e == -1
  {
    if xs == [] then -1
    else
      var e := LastEndOf(f, xs[1..]);
      if e >= 0 then Size(f, xs[0]) + e else LastEnd(f, xs[0])
  }

  // ---------------------------------------------------------------- the same of trees

  ghost function EntryLeaks(es: seq<Entry>): nat
  {
    if es == [] then 0 else Leaks(Erase(es[0].tree)) + EntryLeaks(es[1..])
  }

  ghost function EntrySizes(f: Format, es: seq<Entry>): nat
  {
    if es == [] then 0 else NameSize(f, es[0].name) + Size(f, Erase(es[0].tree)) + EntrySizes(f, es[1..])
  }

  lemma {:induction false} EntriesSnoc(f: Format, es: seq<Entry>, e: Entry)
    ensures EntryLeaks(es + [e]) == EntryLeaks(es) + Leaks(Erase(e.tree))
    ensures EntrySizes(f, es + [e]) == EntrySizes(f, es) + NameSize(f, e.name) + Size(f, Erase(e.tree))
  {
    if es == [] {
      assert es + [e] == [e] && [e][1..] == [];
    } else {
      assert (es + [e])[1..] == es[1..] + [e];
      EntriesSnoc(f, es[1..], e);
    }
  }

  lemma MapsAdd(f: Format, m: map<Bytes, Value>, k: Bytes, v: Value)
    requires k !in m
    ensures Total(LeakMap(m[k := v])) == Total(LeakMap(m)) + Leaks(v)
    ensures Total(SizeMap(f, m[k := v])) == Total(SizeMap(f, m)) + NameSize(f, k) + Size(f, v)
  {
    hide Leaks, Size, NameSize, Total;
    assert LeakMap(m[k := v]) == LeakMap(m)[k := Leaks(v)];
    assert SizeMap(f, m[k := v]) == SizeMap(f, m)[k := NameSize(f, k) + Size(f, v)];
    TotalAdds(LeakMap(m), k, Leaks(v));
    TotalAdds(SizeMap(f, m), k, NameSize(f, k) + Size(f, v));
  }

  lemma NothingTotals(f: Format)
    ensures Total(LeakMap(map[])) == 0 && Total(SizeMap(f, map[])) == 0
  {
    assert LeakMap(map[]) == map[] && SizeMap(f, map[]) == map[];
  }

  /** Over the entries of a struct, in any order, the sums are those over the map. */
  lemma {:induction false} EntriesTotal(f: Format, es: seq<Entry>)
    requires forall i, j | 0 <= i < j < |es| :: es[i].name != es[j].name
    ensures Total(LeakMap(EraseEntries(es))) == EntryLeaks(es)
    ensures Total(SizeMap(f, EraseEntries(es))) == EntrySizes(f, es)
  {
    hide Total, LeakMap, SizeMap, Leaks, Size, NameSize;
    if es == [] {
      NothingTotals(f);
    } else {
      var front, e := es[..|es| - 1], es[|es| - 1];
      EntriesTotal(f, front);
      EraseEntriesHolds(front);
      EntriesSnoc(f, front, e);
      assert front + [e] == es;
      MapsAdd(f, EraseEntries(front), e.name, Erase(e.tree));
    }
  }

  lemma StructTotals(f: Format, es: seq<Entry>)
    requires Distinct(Struct(es))
    ensures Leaks(Erase(Struct(es))) == EntryLeaks(es) && Size(f, Erase(Struct(es))) == EntrySizes(f, es) + 1
  {
    hide Total, LeakMap, SizeMap, EntryLeaks, EntrySizes;
    EntriesTotal(f, es);
  }

  lemma ErasedList(xs: seq<Tree>)
    requires xs != []
    ensures EraseAll(xs)[0] == Erase(xs[0]) && EraseAll(xs)[1..] == EraseAll(xs[1..])
  {
  }

  lemma ErasedElement(xs: seq<Tree>)
    ensures VElementTag(EraseAll(xs)) == ElementTag(xs)
  {
    if xs != [] { EraseTags(xs[0]); }
  }

  /** The payload of a tree takes the bytes its value says. */
  lemma {:induction false} PayloadSize(f: Format, k: int, o: Tree)
    requires Distinct(o) && k >= 0 && EncPayload(f, k, o).Wrote?
    ensures |EncPayload(f, k, o).bytes| == Size(f, Erase(o))
    decreases o, 0
  {
    match o
    case Node(_) =>
    case Slice(xs) => AllSize(f, k + 1, xs);
    case Struct(es) =>
      StructTotals(f, es);
      EntriesSize(f, k + 1, es);
  }

  lemma {:induction false} AllSize(f: Format, k: int, xs: seq<Tree>)
    requires (forall i | 0 <= i < |xs| :: Distinct(xs[i])) && k >= 0 && EncAll(f, k, xs).Wrote?
    ensures |EncAll(f, k, xs).bytes| == SizeOf(f, EraseAll(xs))
    decreases xs, 1
  {
    if xs != [] {
      PayloadSize(f, k, xs[0]);
      AllSize(f, k, xs[1..]);
      ErasedList(xs);
    }
  }

  lemma {:induction false} EntriesSize(f: Format, k: int, es: seq<Entry>)
    requires (forall i | 0 <= i < |es| :: Distinct(es[i].tree)) && k > 0 && EncEntries(f, k, es).Wrote?
    ensures |EncEntries(f, k, es).bytes| == EntrySizes(f, es)
    decreases es, 1
  {
    if es != [] {
      PayloadSize(f, k, es[0].tree);
      EntriesSize(f, k, es[1..]);
    }
  }

  // ------------------------------------------------------------ the two limits of a walk

  /** The depth counter stays below the limit at every tag. */
  ghost predicate DepthOk(o: Tree, depth: int)
    decreases o, 0
  {
    match o
    case Node(_) => true
    case Slice(xs) => TypedElement(ElementTag(xs)) || DepthOkAll(xs, depth + 1)
    case Struct(es) => DepthOkEntries(es, depth + 1)
  }

  ghost predicate DepthOkAll(xs: seq<Tree>, depth: int)
    decreases xs, 1
  {
    xs != [] ==> DepthOk(xs[0], depth) && DepthOkAll(xs[1..], depth + Leaks(Erase(xs[0])))
  }

  ghost predicate DepthOkEntries(es: seq<Entry>, depth: int)
    decreases es, 1
  {
    && depth < MAX_DEPTH
    && (es != [] ==> DepthOk(es[0].tree, depth) && DepthOkEntries(es[1..], depth + Leaks(Erase(es[0].tree))))
  }

  /** The last tag of something that starts at an offset lies within the limit of network NBT. */
  predicate InReach(f: Format, off: int, e: int)
  {
    f.Varies() && e >= 0 ==> off + e < MAX_NETWORK_OFFSET
  }

  /** A walk goes through exactly if the counter and the offset stay within their limits, and leaks what the value says. */
  lemma {:induction false} WalkIff(f: Format, k: int, o: Tree, depth: int, off: int)
    requires Distinct(o) && k >= 0 && EncPayload(f, k, o).Wrote?
    ensures var w := WalkPayload(f, k, o, depth, off);
      && (w.At? <==> DepthOk(o, depth) && InReach(f, off, LastEnd(f, Erase(o))))
      && (w.At? ==> w.depth == depth + Leaks(Erase(o)))
    decreases o, 0
  {
    match o
    case Node(_) =>
    case Slice(xs) => SliceWalk(f, k, xs, depth, off);
    case Struct(es) =>
      StructTotals(f, es);
      EntriesWalkIff(f, k + 1, es, depth + 1, off);
  }

  lemma {:induction false} SliceWalk(f: Format, k: int, xs: seq<Tree>, depth: int, off: int)
    requires Distinct(Slice(xs)) && k >= 0 && EncPayload(f, k, Slice(xs)).Wrote?
    ensures var w := WalkPayload(f, k, Slice(xs), depth, off);
      && (w.At? <==> DepthOk(Slice(xs), depth) && InReach(f, off, LastEnd(f, Erase(Slice(xs)))))
      && (w.At? ==> w.depth == depth + Leaks(Erase(Slice(xs))))
    decreases xs, 2
  {
    ErasedElement(xs);
    if !TypedElement(ElementTag(xs)) {
      AllWalkIff(f, k + 1, xs, depth + 1, off + 1 + |EncInt(f, W32, |xs|)|);
    }
  }

  lemma {:induction false} AllWalkIff(f: Format, k: int, xs: seq<Tree>, depth: int, off: int)
    requires (forall i | 0 <= i < |xs| :: Distinct(xs[i])) && k >= 0 && EncAll(f, k, xs).Wrote?
    ensures var w := WalkAll(f, k, xs, depth, off);
      && (w.At? <==> DepthOkAll(xs, depth) && InReach(f, off, LastEndOf(f, EraseAll(xs))))
      && (w.At? ==> w.depth == depth + LeaksOf(EraseAll(xs)))
    decreases xs, 1
  {
    hide Leaks, Size, DepthOk, WalkPayload, Distinct;
    if xs != [] {
      WalkIff(f, k, xs[0], depth, off);
      PayloadSize(f, k, xs[0]);
      ErasedList(xs);
      AllWalkIff(f, k, xs[1..], depth + Leaks(Erase(xs[0])), off + Size(f, Erase(xs[0])));
    }
  }

  lemma {:induction false} EntriesWalkIff(f: Format, k: int, es: seq<Entry>, depth: int, off: int)
    requires (forall i | 0 <= i < |es| :: Distinct(es[i].tree)) && k > 0 && EncEntries(f, k, es).Wrote?
    ensures var w := WalkEntries(f, k, es, depth, off);
      && (w.At? <==> DepthOkEntries(es, depth) && InReach(f, off, EntrySizes(f, es)))
      && (w.At? ==> w.depth == depth + EntryLeaks(es))
    decreases es, 1
  {
    hide Leaks, Size, LastEnd, DepthOk, WalkPayload, Distinct;
    if es != [] {
      var e := es[0];
      WalkIff(f, k, e.tree, depth, off + NameSize(f, e.name));
      PayloadSize(f, k, e.tree);
      EntriesWalkIff(f, k, es[1..], depth + Leaks(Erase(e.tree)), off + NameSize(f, e.name) + Size(f, Erase(e.tree)));
    }
  }

  // ------------------------------------------------------------------- every key order

  /** Every order of the keys keeps the counter below the limit. */
  ghost predicate AllOrders(v: Value, depth: int)
    decreases v, 1
  {
    match v
    case Atom(_) => true
    case List(xs) => TypedElement(VElementTag(xs)) || AllOrdersOf(xs, depth + 1)
    case Compound(m) =>
      && depth + 1 + Leaks(v) < MAX_DEPTH
      && forall k | k in m :: AllOrders(m[k], depth + 1 + Leaks(v) - Leaks(m[k]))
  }

  ghost predicate AllOrdersOf(xs: seq<Value>, depth: int)
    decreases xs, 0
  {
    xs != [] ==> AllOrders(xs[0], depth) && AllOrdersOf(xs[1..], depth + Leaks(xs[0]))
  }

  lemma {:induction false} LowerIsFine(v: Value, depth: int, lower: int)
    requires AllOrders(v, depth) && lower <= depth
    ensures AllOrders(v, lower)
    decreases v, 1
  {
    match v
    case Atom(_) =>
    case List(xs) => if !TypedElement(VElementTag(xs)) { LowerAllFine(xs, depth + 1, lower + 1); }
    case Compound(m) =>
      forall k | k in m ensures AllOrders(m[k], lower + 1 + Leaks(v) - Leaks(m[k])) {
        LowerIsFine(m[k], depth + 1 + Leaks(v) - Leaks(m[k]), lower + 1 + Leaks(v) - Leaks(m[k]));
      }
  }

  lemma {:induction false} LowerAllFine(xs: seq<Value>, depth: int, lower: int)
    requires AllOrdersOf(xs, depth) && lower <= depth
    ensures AllOrdersOf(xs, lower)
    decreases xs, 0
  {
    if xs != [] {
      LowerIsFine(xs[0], depth, lower);
      LowerAllFine(xs[1..], depth + Leaks(xs[0]), lower + Leaks(xs[0]));
    }
  }

  /** A value all orders of which are fine is fine in this one. */
  lemma {:induction false} OrderIsFine(o: Tree, depth: int)
    requires Distinct(o) && AllOrders(Erase(o), depth)
    ensures DepthOk(o, depth)
    decreases o, 0
  {
    match o
    case Node(_) =>
    case Slice(xs) =>
      ErasedElement(xs);
      if !TypedElement(ElementTag(xs)) { AllFine(xs, depth + 1); }
    case Struct(es) => StructFine(es, depth);
  }

  lemma {:induction false} StructFine(es: seq<Entry>, depth: int)
    requires Distinct(Struct(es)) && AllOrders(Erase(Struct(es)), depth)
    ensures DepthOkEntries(es, depth + 1)
    decreases es, 2
  {
    hide Leaks, EntryLeaks, Size, AllOrders, DepthOkEntries;
    var m, most := EraseEntries(es), depth + 1 + Leaks(Erase(Struct(es)));
    StructTotals(Format(LittleEndian, Little), es);
    forall i | 0 <= i < |es| ensures AllOrders(Erase(es[i].tree), most - Leaks(Erase(es[i].tree))) {
      EntryIn(es, i);
      FieldFine(m, depth, es[i].name);
    }
    CompoundFine(m, depth);
    EntriesFine(es, depth + 1, most);
  }

  lemma EntryIn(es: seq<Entry>, i: nat)
    requires Distinct(Struct(es)) && i < |es|
    ensures es[i].name in EraseEntries(es) && EraseEntries(es)[es[i].name] == Erase(es[i].tree)
  {
    EraseEntriesHolds(es);
  }

  lemma CompoundFine(m: map<Bytes, Value>, depth: int)
    requires AllOrders(Compound(m), depth)
    ensures depth + 1 + Leaks(Compound(m)) < MAX_DEPTH
  {
  }

  lemma FieldFine(m: map<Bytes, Value>, depth: int, k: Bytes)
    requires AllOrders(Compound(m), depth) && k in m
    ensures AllOrders(m[k], depth + 1 + Leaks(Compound(m)) - Leaks(m[k]))
  {
  }

  lemma {:induction false} AllFine(xs: seq<Tree>, depth: int)
    requires (forall i | 0 <= i < |xs| :: Distinct(xs[i])) && AllOrdersOf(EraseAll(xs), depth)
    ensures DepthOkAll(xs, depth)
    decreases xs, 1
  {
    if xs != [] {
      ErasedList(xs);
      OrderIsFine(xs[0], depth);
      AllFine(xs[1..], depth + Leaks(Erase(xs[0])));
    }
  }

  lemma {:induction false} EntriesFine(es: seq<Entry>, depth: int, most: int)
    requires forall i | 0 <= i < |es| :: Distinct(es[i].tree)
    requires depth + EntryLeaks(es) <= most < MAX_DEPTH
    requires forall i | 0 <= i < |es| :: AllOrders(Erase(es[i].tree), most - Leaks(Erase(es[i].tree)))
    ensures DepthOkEntries(es, depth)
    decreases es, 1
  {
    if es != [] {
      var x := Erase(es[0].tree);
      LowerIsFine(x, most - Leaks(x), depth);
      OrderIsFine(es[0].tree, depth);
      EntriesFine(es[1..], depth + Leaks(x), most);
    }
  }

  /** A tree that is an order of a value. */
  predicate OrderOf(o: Tree, v: Value) { Distinct(o) && Erase(o) == v }

  lemma {:induction false} SomeOrder(v: Value) returns (o: Tree)
    ensures OrderOf(o, v)
    decreases v, 0
  {
    match v
    case Atom(leaf) => o := Node(leaf);
    case List(xs) =>
      var os := SomeOrders(xs);
      assert EraseAll(os) == xs;
      o := Slice(os);
    case Compound(m) =>
      var es := SomeEntries(m, m.Keys);
      assert Kept(m, m.Keys) == m;
      o := Struct(es);
  }

  lemma {:induction false} SomeOrders(xs: seq<Value>) returns (os: seq<Tree>)
    ensures |os| == |xs| && forall i | 0 <= i < |os| :: OrderOf(os[i], xs[i])
    decreases xs, 1
  {
    if xs == [] {
      os := [];
    } else {
      var o := SomeOrder(xs[0]);
      var rest := SomeOrders(xs[1..]);
      os := [o] + rest;
    }
  }

  function Kept(m: map<Bytes, Value>, keys: set<Bytes>): map<Bytes, Value>
  {
    map k | k in m && k in keys :: m[k]
  }

  lemma {:induction false} SomeEntries(m: map<Bytes, Value>, keys: set<Bytes>) returns (es: seq<Entry>)
    requires keys <= m.Keys
    ensures Distinct(Struct(es)) && EraseEntries(es) == Kept(m, keys)
    decreases Compound(m), 0, |keys|
  {
    if keys == {} {
      es := [];
      assert Kept(m, keys) == map[];
    } else {
      var k :| k in keys;
      var rest := SomeEntries(m, keys - {k});
      var o := SomeOrder(m[k]);
      es := rest + [Entry(k, o)];
      EntryAdds(rest, Kept(m, keys - {k}), k, o);
      assert Kept(m, keys - {k})[k := m[k]] == Kept(m, keys);
    }
  }

  lemma EntryAdds(es: seq<Entry>, m: map<Bytes, Value>, k: Bytes, o: Tree)
    requires Distinct(Struct(es)) && EraseEntries(es) == m && k !in m && Distinct(o)
    ensures Distinct(Struct(es + [Entry(k, o)])) && EraseEntries(es + [Entry(k, o)]) == m[k := Erase(o)]
  {
    EraseEntriesHolds(es);
    var more := es + [Entry(k, o)];
    assert more[..|es|] == es;
    forall i, j | 0 <= i < j < |more| ensures more[i].name != more[j].name {
      assert more[i] == es[i];
      assert es[i].name in m;
    }
  }

  lemma {:induction false} EndStands(es: seq<Entry>, depth: int)
    requires DepthOkEntries(es, depth)
    ensures depth + EntryLeaks(es) < MAX_DEPTH
  {
    if es != [] { EndStands(es[1..], depth + Leaks(Erase(es[0].tree))); }
  }

  lemma {:induction false} LastStands(es: seq<Entry>, e: Entry, depth: int)
    requires DepthOkEntries(es + [e], depth)
    ensures DepthOk(e.tree, depth + EntryLeaks(es))
  {
    if es == [] {
      assert es + [e] == [e];
    } else {
      assert (es + [e])[1..] == es[1..] + [e];
      LastStands(es[1..], e, depth + Leaks(Erase(es[0].tree)));
    }
  }

  /** Where the bound does not hold, some order runs into the limit. */
  lemma {:induction false} WorstOrder(v: Value, depth: int) returns (o: Tree)
    requires !AllOrders(v, depth)
    ensures OrderOf(o, v) && !DepthOk(o, depth)
    decreases v, 1
  {
    match v
    case List(xs) =>
      var os := WorstOrders(xs, depth + 1);
      assert EraseAll(os) == xs;
      ErasedElement(os);
      o := Slice(os);
    case Compound(m) =>
      var es := WorstEntries(m, depth);
      o := Struct(es);
  }

  lemma {:induction false} WorstOrders(xs: seq<Value>, depth: int) returns (os: seq<Tree>)
    requires !AllOrdersOf(xs, depth)
    ensures |os| == |xs| && (forall i | 0 <= i < |os| :: OrderOf(os[i], xs[i])) && !DepthOkAll(os, depth)
    decreases xs, 0
  {
    var o, rest;
    if !AllOrders(xs[0], depth) {
      o := WorstOrder(xs[0], depth);
      rest := SomeOrders(xs[1..]);
    } else {
      o := SomeOrder(xs[0]);
      rest := WorstOrders(xs[1..], depth + Leaks(xs[0]));
    }
    os := [o] + rest;
    assert os[1..] == rest;
  }

  lemma {:induction false} WorstEntries(m: map<Bytes, Value>, depth: int) returns (es: seq<Entry>)
    requires !AllOrders(Compound(m), depth)
    ensures OrderOf(Struct(es), Compound(m)) && !DepthOkEntries(es, depth + 1)
    decreases Compound(m), 0
  {
    hide Leaks, DepthOkEntries, DepthOk;
    var most := depth + 1 + Leaks(Compound(m));
    if most >= MAX_DEPTH {
      es := SomeEntries(m, m.Keys);
      assert Kept(m, m.Keys) == m;
      TooManyLeaks(es, depth);
    } else {
      var k :| k in m && !AllOrders(m[k], most - Leaks(m[k]));
      var o := WorstOrder(m[k], most - Leaks(m[k]));
      es := LastEntry(m, depth, k, o);
    }
  }

  lemma TooManyLeaks(es: seq<Entry>, depth: int)
    requires Distinct(Struct(es)) && depth + 1 + Leaks(Erase(Struct(es))) >= MAX_DEPTH
    ensures !DepthOkEntries(es, depth + 1)
  {
    hide Leaks, EntryLeaks, Size;
    StructTotals(Format(LittleEndian, Little), es);
    if DepthOkEntries(es, depth + 1) { EndStands(es, depth + 1); }
  }

  /** An order in which an entry that runs into the limit behind all its siblings comes last. */
  lemma LastEntry(m: map<Bytes, Value>, depth: int, k: Bytes, o: Tree) returns (es: seq<Entry>)
    requires k in m && OrderOf(o, m[k]) && !DepthOk(o, depth + 1 + Leaks(Compound(m)) - Leaks(m[k]))
    ensures OrderOf(Struct(es), Compound(m)) && !DepthOkEntries(es, depth + 1)
  {
    hide Leaks, EntryLeaks, Size, DepthOk, DepthOkEntries;
    var e := Entry(k, o);
    var front := SomeEntries(m, m.Keys - {k});
    es := front + [e];
    EntryAdds(front, Kept(m, m.Keys - {k}), k, o);
    assert Kept(m, m.Keys - {k})[k := m[k]] == m;
    StructTotals(Format(LittleEndian, Little), es);
    EntriesSnoc(Format(LittleEndian, Little), front, e);
    if DepthOkEntries(es, depth + 1) { LastStands(front, e, depth + 1); }
  }

  // -------------------------------------------------------------------------- results

  /** What the encoder asks of a Go value: Go's ranges, and elements of one tag type in every list. */
  predicate SoundValue(v: Value)
  {
    match v
    case Atom(leaf) => leaf.Valid()
    case List(xs) =>
      |xs| < 0x8000_0000 && forall i | 0 <= i < |xs| :: SoundValue(xs[i]) && VTag(xs[i]) == VTag(xs[0])
    case Compound(m) => forall k | k in m :: SoundValue(m[k])
  }

  lemma {:induction false} OrdersAreSound(o: Tree)
    requires Distinct(o) && SoundValue(Erase(o))
    ensures Sound(o)
  {
    match o
    case Node(_) =>
    case Slice(xs) =>
      forall i | 0 <= i < |xs| ensures Sound(xs[i]) && xs[i].Tag() == xs[0].Tag() {
        assert SoundValue(EraseAll(xs)[i]) && VTag(EraseAll(xs)[i]) == VTag(EraseAll(xs)[0]);
        OrdersAreSound(xs[i]);
        EraseTags(xs[i]);
        EraseTags(xs[0]);
      }
    case Struct(es) =>
      forall i | 0 <= i < |es| ensures Sound(es[i].tree) {
        EntryIn(es, i);
        OrdersAreSound(es[i].tree);
      }
  }

  /** The last tag of the document of a value lies within the limit of network NBT. */
  ghost predicate WithinOffset(f: Format, v: Value)
  {
    InReach(f, if Nameless(f, VTag(v), 0) then 1 else NameSize(f, []), LastEnd(f, v))
  }

  /** Of a compound, that is a document of at most 4 MiB. */
  lemma WithinOffsetOfCompound(f: Format, o: Tree)
    requires Distinct(o) && o.Struct? && Encode(f, o).Wrote?
    ensures WithinOffset(f, Erase(o)) <==> (f.Varies() ==> |Encode(f, o).bytes| <= 4194304)
  {
    PayloadSize(f, 0, o);
  }

  /** What was written for an order of a value decodes to its normal form and leaves what follows. */
  predicate ReadsBack(f: Format, o: Tree, v: Value, t: Bytes)
  {
    Encode(f, o).Wrote? &&
    var r := Decode(f, Encode(f, o).bytes + t);
    r.Got? && ValueOf(r.v) == NormalForm(v) && r.d.s == t
  }

  lemma OrderReadsIff(f: Format, o: Tree, t: Bytes)
    requires Distinct(o) && Sound(o) && Encode(f, o).Wrote?
    ensures ReadsBack(f, o, Erase(o), t) <==> DepthOk(o, 0) && WithinOffset(f, Erase(o))
    ensures !f.Varies() && !DepthOk(o, 0) ==> Decode(f, Encode(f, o).bytes + t) == Lost(DepthReached)
  {
    hide Decode, NormalForm, DepthOk, LastEnd, Distinct, Sound;
    RoundTrip(f, Erase(o), o, t);
    EraseTags(o);
    RootWalk(f, o);
    if WalkRoot(f, o).Stopped? && !f.Varies() { StopsAtDepth(f, 0, o, 0, Length(EncTag(f, 0, o.Tag(), []))); }
  }

  /** So the bytes of a document are read as its value, exactly if the order keeps the bounds. */
  lemma DocumentRead(f: Format, o: Tree, t: Bytes)
    requires Distinct(o) && Sound(o) && NbtLayout.Small(0, o)
    ensures var r := Decode(f, NbtLayout.Document(f.enc, o) + t);
      (r.Got? && ValueOf(r.v) == NormalForm(Erase(o)) && r.d.s == t) <==> DepthOk(o, 0) && WithinOffset(f, Erase(o))
  {
    hide Decode, NormalForm, DepthOk, WithinOffset, Encode, NbtLayout.Document;
    NbtLayout.DocumentWritten(f, o);
    OrderReadsIff(f, o, t);
  }

  lemma RootWalk(f: Format, o: Tree)
    requires Distinct(o) && Encode(f, o).Wrote?
    ensures WalkRoot(f, o).At? <==> DepthOk(o, 0) && InReach(f, Length(EncTag(f, 0, o.Tag(), [])), LastEnd(f, Erase(o)))
  {
    WalkIff(f, 0, o, 0, Length(EncTag(f, 0, o.Tag(), [])));
  }

  /** Off the network only the depth stops a walk. */
  lemma {:induction false} StopsAtDepth(f: Format, k: int, o: Tree, depth: int, off: int)
    requires !f.Varies() && WalkPayload(f, k, o, depth, off).Stopped?
    ensures WalkPayload(f, k, o, depth, off) == Stopped(DepthReached)
    decreases o, 0
  {
    match o
    case Slice(xs) => AllStopAtDepth(f, k + 1, xs, depth + 1, off + 1 + |EncInt(f, W32, |xs|)|);
    case Struct(es) => EntriesStopAtDepth(f, k + 1, es, depth + 1, off);
  }

  lemma {:induction false} AllStopAtDepth(f: Format, k: int, xs: seq<Tree>, depth: int, off: int)
    requires !f.Varies() && WalkAll(f, k, xs, depth, off).Stopped?
    ensures WalkAll(f, k, xs, depth, off) == Stopped(DepthReached)
    decreases xs, 1
  {
    var w := WalkPayload(f, k, xs[0], depth, off);
    if w.Stopped? {
      StopsAtDepth(f, k, xs[0], depth, off);
    } else {
      AllStopAtDepth(f, k, xs[1..], w.depth, off + Length(EncPayload(f, k, xs[0])));
    }
  }

  lemma {:induction false} EntriesStopAtDepth(f: Format, k: int, es: seq<Entry>, depth: int, off: int)
    requires !f.Varies() && WalkEntries(f, k, es, depth, off).Stopped?
    ensures WalkEntries(f, k, es, depth, off) == Stopped(DepthReached)
    decreases es, 1
  {
    if depth < MAX_DEPTH {
      var at := off + Length(EncTag(f, k, es[0].tree.Tag(), es[0].name));
      var w := WalkPayload(f, k, es[0].tree, depth, at);
      if w.Stopped? {
        StopsAtDepth(f, k, es[0].tree, depth, at);
      } else {
        EntriesStopAtDepth(f, k, es[1..], w.depth, off + Length(EncEntry(f, k, es[0])));
      }
    }
  }

  /**
   * A Go value the encoder accepts is read back in every order of its keys if and only if, in the value, nesting and typed
   * lists keep the bound of AllOrders, and on the network the last tag comes within 4 MiB. Where it is not, there is an
   * order that is not read back.
   */
  lemma EveryOrderReads(f: Format, v: Value, t: Bytes)
    requires SoundValue(v) && Accepted(0, v)
    ensures (forall o | OrderOf(o, v) :: ReadsBack(f, o, v, t)) <==> AllOrders(v, 0) && WithinOffset(f, v)
  {
    hide AllOrders, WithinOffset, DepthOk, ReadsBack, SoundValue, Accepted, Encodable;
    forall o | OrderOf(o, v) ensures ReadsBack(f, o, v, t) <==> DepthOk(o, 0) && WithinOffset(f, v) {
      OrdersAreSound(o);
      AcceptedIffEncodable(0, o);
      EncodableIffWritten(f, 0, o);
      OrderReadsIff(f, o, t);
    }
    if AllOrders(v, 0) && WithinOffset(f, v) {
      forall o | OrderOf(o, v) ensures ReadsBack(f, o, v, t) { OrderIsFine(o, 0); }
    } else {
      var o;
      if AllOrders(v, 0) { o := SomeOrder(v); } else { o := WorstOrder(v, 0); }
      assert OrderOf(o, v) && !ReadsBack(f, o, v, t);
    }
  }

  // ------------------------------------------------------------ what the leak costs

  /** A compound of empty int lists, one for each name. */
  function IntLists(names: seq<Bytes>): (es: seq<Entry>)
    ensures |es| == |names| && forall i | 0 <= i < |es| :: es[i] == Entry(names[i], Node(Int32List([])))
  {
    if names == [] then [] else [Entry(names[0], Node(Int32List([])))] + IntLists(names[1..])
  }

  lemma {:induction false} IntListsLeak(names: seq<Bytes>, depth: int)
    ensures EntryLeaks(IntLists(names)) == |names|
    ensures DepthOkEntries(IntLists(names), depth) <==> depth + |names| < MAX_DEPTH
  {
    if names != [] {
      assert IntLists(names)[1..] == IntLists(names[1..]);
      IntListsLeak(names[1..], depth + 1);
    }
  }

  predicate Names(names: seq<Bytes>)
  {
    && (forall i | 0 <= i < |names| :: |names[i]| <= MAX_STRING)
    && forall i, j | 0 <= i < j < |names| :: names[i] != names[j]
  }

  lemma IntListsAccepted(f: Format, names: seq<Bytes>)
    requires Names(names)
    ensures var o := Struct(IntLists(names)); Distinct(o) && Sound(o) && Encode(f, o).Wrote?
  {
    EncodableIffWritten(f, 0, Struct(IntLists(names)));
  }

  /**
   * The round trip fails where the encoder's and the decoder's depth differ: the encoder accepts a compound of any number
   * of empty int lists, and the decoder reads it back exactly when there are at most 510 of them, and on the network no
   * more than 4 MiB.
   */
  lemma LeakBreaksRoundTrip(f: Format, names: seq<Bytes>, t: Bytes)
    requires Names(names)
    ensures var o := Struct(IntLists(names));
      && Distinct(o) && Sound(o) && Encode(f, o).Wrote?
      && (ReadsBack(f, o, Erase(o), t) <==>
            |names| <= 510 && (f.Varies() ==> |Encode(f, o).bytes| <= 4194304))
      && (!f.Varies() && |names| > 510 ==> Decode(f, Encode(f, o).bytes + t) == Lost(DepthReached))
  {
    hide Encode, Decode, Sound, Distinct, ReadsBack, WithinOffset, Names;
    var o := Struct(IntLists(names));
    IntListsAccepted(f, names);
    IntListsLeak(names, 1);
    OrderReadsIff(f, o, t);
    WithinOffsetOfCompound(f, o);
  }

  /** The int lists, and an empty compound before or behind them. */
  function Early(names: seq<Bytes>, a: Bytes): seq<Entry> { [Entry(a, Struct([]))] + IntLists(names) }

  function Late(names: seq<Bytes>, a: Bytes): seq<Entry> { IntLists(names) + [Entry(a, Struct([]))] }

  predicate Apart(names: seq<Bytes>, a: Bytes)
  {
    Names(names) && |a| <= MAX_STRING && a !in names
  }

  lemma {:induction false} EraseCons(e: Entry, es: seq<Entry>)
    requires Distinct(Struct([e] + es))
    ensures EraseEntries([e] + es) == EraseEntries(es)[e.name := Erase(e.tree)]
  {
    if es == [] {
      assert [e] + es == [e] && [e][..0] == [];
      assert EraseEntries([e]) == EraseEntries([])[e.name := Erase(e.tree)];
    } else {
      var n := |es| - 1;
      var all := [e] + es;
      assert all[..|all| - 1] == [e] + es[..n] && all[|all| - 1] == es[n];
      assert forall i | 0 <= i < n :: es[..n][i] == all[i + 1];
      EraseCons(e, es[..n]);
      assert all[0].name != all[n + 1].name;
    }
  }

  lemma SameMap(names: seq<Bytes>, a: Bytes)
    requires Apart(names, a)
    ensures Distinct(Struct(Early(names, a))) && Distinct(Struct(Late(names, a)))
    ensures Erase(Struct(Early(names, a))) == Erase(Struct(Late(names, a)))
  {
    EraseCons(Entry(a, Struct([])), IntLists(names));
    assert Late(names, a)[..|names|] == IntLists(names);
  }

  lemma BothAccepted(f: Format, names: seq<Bytes>, a: Bytes)
    requires Apart(names, a)
    ensures Sound(Struct(Early(names, a))) && Encode(f, Struct(Early(names, a))).Wrote?
    ensures Sound(Struct(Late(names, a))) && Encode(f, Struct(Late(names, a))).Wrote?
  {
    EncodableIffWritten(f, 0, Struct(Early(names, a)));
    EncodableIffWritten(f, 0, Struct(Late(names, a)));
  }

  lemma EarlyIsFine(names: seq<Bytes>, a: Bytes)
    ensures DepthOkEntries(Early(names, a), 1) <==> 1 + |names| < MAX_DEPTH
  {
    IntListsLeak(names, 1);
    assert Early(names, a)[1..] == IntLists(names);
    NoLeaks();
  }

  lemma NoLeaks()
    ensures Leaks(Erase(Struct([]))) == 0
  {
    assert LeakMap(map[]) == map[];
  }

  lemma LateIsNot(names: seq<Bytes>, a: Bytes)
    requires |names| == 510
    ensures !DepthOkEntries(Late(names, a), 1)
  {
    IntListsLeak(names, 1);
    if DepthOkEntries(Late(names, a), 1) {
      LastStands(IntLists(names), Entry(a, Struct([])), 1);
    }
  }

  /**
   * The order of the keys decides: a document that decodes, and its value written in another order of the keys, which does
   * not.
   */
  lemma OrderMatters(f: Format, names: seq<Bytes>, a: Bytes)
    requires Apart(names, a) && |names| == 510
    requires f.Varies() ==> Length(Encode(f, Struct(Early(names, a)))) <= 4194304
    ensures var early, late := Struct(Early(names, a)), Struct(Late(names, a));
      && Encode(f, early).Wrote? && Encode(f, late).Wrote?
      && Decode(f, Encode(f, early).bytes).Got?
      && OrderOf(late, ValueOf(Decode(f, Encode(f, early).bytes).v))
      && Decode(f, Encode(f, late).bytes).Lost?
  {
    hide Encode, Decode, Sound, Early, Late, ValueOf, DepthOkEntries, NormalForm, WithinOffset;
    var early, late := Struct(Early(names, a)), Struct(Late(names, a));
    SameMap(names, a);
    BothAccepted(f, names, a);
    EarlyIsFine(names, a);
    LateIsNot(names, a);
    OrderReadsIff(f, early, []);
    OrderReadsIff(f, late, []);
    WithinOffsetOfCompound(f, early);
    assert Encode(f, early).bytes + [] == Encode(f, early).bytes;
    assert Encode(f, late).bytes + [] == Encode(f, late).bytes;
    ItsOwnNormalForm(names, a);
    LateIsLost(f, late);
  }

  lemma LateIsLost(f: Format, o: Tree)
    requires Distinct(o) && Sound(o) && Encode(f, o).Wrote? && !ReadsBack(f, o, Erase(o), [])
    ensures Decode(f, Encode(f, o).bytes + []).Lost?
  {
    hide Decode, Encode, NormalForm, ValueOf;
    RoundTrip(f, Erase(o), o, []);
  }

  lemma ItsOwnNormalForm(names: seq<Bytes>, a: Bytes)
    requires Apart(names, a)
    ensures var v := Erase(Struct(Early(names, a))); NormalForm(v) == v
  {
    var es := Early(names, a);
    SameMap(names, a);
    FieldsOfEntries(es);
    AtomsAndEmpties(EraseEntries(es));
  }

  lemma FieldsOfEntries(es: seq<Entry>)
    requires Distinct(Struct(es))
    ensures forall k | k in EraseEntries(es) :: exists i | 0 <= i < |es| :: EraseEntries(es)[k] == Erase(es[i].tree)
  {
    EraseEntriesHolds(es);
  }

  lemma AtomsAndEmpties(m: map<Bytes, Value>)
    requires forall k | k in m :: m[k] == Atom(Int32List([])) || m[k] == Compound(map[])
    ensures NormalForm(Compound(m)) == Compound(m)
  {
    assert NormalForm(Compound(map[])).fields == map[];
    assert NormalForm(Compound(m)).fields == m;
  }
}
