/** What a value of a shape is sent as, and what comes back of it: the rules that layouts are put together with. */
module Layouts {
  import opened Wire
  import opened Varints
  import opened WordBytes
  import opened Fields
  import opened Shapes
  import opened ShapeReading
  import opened ShapeRoundTrip
  import opened ShapeLimits
  import opened ItemLayout
  import Nbt = NbtTree

  /** The bytes of a value, the value read back, and whether a reader's limits let it through. */
  datatype Sending = Sending(bytes: Bytes, back: Val, within: bool)

  predicate Sends(c: Settings, s: Shape, v: Val, z: Sending)
  {
    Written(c, s, v, z.bytes) && Canon(c, s, v) == z.back && (Within(c, s, v) <==> z.within)
  }

  lemma PairSends(c: Settings, a: Shape, b: Shape, x: Val, y: Val, p: Sending, q: Sending)
    requires Sends(c, a, x, p) && Sends(c, b, y, q)
    ensures Sends(c, Pair(a, b), Both(x, y), Sending(p.bytes + q.bytes, Both(p.back, q.back), p.within && q.within))
  {
  }

  /** The Go types have the numbers of the types of Wire. */
  lemma Ranges(b: byte, s: i16, i: i32, u: u32)
    ensures U8.Has(b) && I16.Has(s) && I32.Has(i) && U32.Has(u)
  {
    Int32Bounds(i);
    Pow2Values();
    hide Pow2;
    HalfWord();
  }

  lemma HalfWord()
    ensures Pow2(15) == 0x8000
  {
    Pow2Byte();
    Pow2Adds(8, 7);
  }

  /** A conversion to a Go type: the one number in the range of the type that differs by a multiple of 2^bits. */
  lemma Converted(t: Int, x: int)
    ensures (t.Of(x) - x) % Pow2(t.bits) == 0
    ensures if t.signed then 0 - Pow2(t.bits - 1) <= t.Of(x) < Pow2(t.bits - 1) else 0 <= t.Of(x) < Pow2(t.bits)
  {
    var p := Pow2(t.bits);
    OfHas(t, x);
    var q := x / p;
    assert x == q * p + x % p;
    DivUnique(x % p - x, p, -q, 0);
    DivUnique(x % p - p - x, p, -q - 1, 0);
  }

  lemma ByteSends(c: Settings, x: byte)
    ensures Sends(c, Plain(OneByte), Integer(x), Sending([x], Integer(x), true))
  {
    Pow2Byte();
  }

  lemma FixedSends(c: Settings, size: Size, signed: bool, go: Int, x: int)
    requires go.Has(x)
    ensures var form := Fixed(size, signed);
      Sends(c, Num(form, go), Integer(x), Sending(LowBytes(size.Bytes(), x), Integer(go.Of(form.Type().Of(x))), true))
  {
    FixedWritten(c, size, signed, go, x);
  }

  /** A number in a field of its own width comes back as it is. */
  lemma SameFixedSends(c: Settings, size: Size, signed: bool, go: Int, x: int)
    requires go.Has(x) && go.bits == 8 * size.Bytes()
    ensures Sends(c, Num(Fixed(size, signed), go), Integer(x), Sending(LowBytes(size.Bytes(), x), Integer(x), true))
  {
    FixedSends(c, size, signed, go, x);
    SameWidthKeeps(go, Fixed(size, signed).Type(), x);
  }

  lemma SignedSends(c: Settings, x: i32)
    ensures Sends(c, Plain(VARINT32), Integer(x), Sending(Varint(x), Integer(x), true))
  {
    Ranges(0, 0, x, 0);
    SignedWritten(c, I32, x);
    OfHas(I32, x);
  }

  lemma UnsignedSends(c: Settings, x: u32)
    ensures Sends(c, Plain(VARUINT32), Integer(x), Sending(Varuint(x), Integer(x), true))
  {
    Ranges(0, 0, 0, x);
    UnsignedWritten(c, U32, x);
    OfHas(U32, x);
  }

  lemma TextSends(c: Settings, s: Bytes)
    ensures Sends(c, Txt, Str(s), Sending(Varuint(|s|) + s, Str(s), true))
  {
  }

  lemma NothingSends(c: Settings)
    ensures Sends(c, Nothing, Unit, Sending([], Unit, true))
  {
  }

  /** One case of a union: its marking, and what the case is sent as. */
  lemma CaseSends(c: Settings, tag: Tagging, cases: seq<Shape>, k: nat, v: Val, z: Sending)
    requires k < |cases| && tag.Fits(|cases|) && Sends(c, cases[k], v, z)
    ensures Sends(c, Union(tag, cases), Case(k, v), Sending(TagBytes(tag, k) + z.bytes, Case(k, z.back), z.within))
  {
  }

  lemma BoolSends(c: Settings, b: bool)
    ensures Sends(c, FLAG, Case(if b then 1 else 0, Unit), Sending([if b then 1 else 0], Case(if b then 1 else 0, Unit), true))
  {
    NothingSends(c);
    CaseSends(c, Boolean, [Nothing, Nothing], if b then 1 else 0, Unit, Sending([], Unit, true));
  }

  /** The sendings of a list, one after the other. */
  function Joined(zs: seq<Sending>): Bytes { if zs == [] then [] else zs[0].bytes + Joined(zs[1..]) }

  function Backs(zs: seq<Sending>): (r: seq<Val>)
    ensures |r| == |zs|
  {
    if zs == [] then [] else [zs[0].back] + Backs(zs[1..])
  }

  predicate AllSend(c: Settings, e: Shape, vs: seq<Val>, zs: seq<Sending>)
  {
    |vs| == |zs| && forall i | 0 <= i < |vs| :: Sends(c, e, vs[i], zs[i])
  }

  lemma {:induction false} SomeSend(c: Settings, e: Shape, vs: seq<Val>, zs: seq<Sending>)
    requires AllSend(c, e, vs, zs)
    ensures forall i | 0 <= i < |vs| :: Fits(e, vs[i])
    ensures EncSome(c, e, vs, |vs|) == Wrote(Joined(zs)) && CanonSome(c, e, vs, |vs|) == Backs(zs)
    ensures WithinSome(c, e, vs, |vs|) <==> forall i | 0 <= i < |zs| :: zs[i].within
  {
    hide Fits, Enc, Canon, Within;
    if vs != [] {
      SomeSend(c, e, vs[1..], zs[1..]);
      assert forall i | 1 <= i < |zs| :: zs[i] == zs[1..][i - 1] && vs[i] == vs[1..][i - 1];
    }
  }

  /** A list behind its number: with limits on, a reader takes 1024 elements. */
  lemma ListSends(c: Settings, e: Shape, vs: seq<Val>, zs: seq<Sending>)
    requires AllSend(c, e, vs, zs) && |vs| < 0x1_0000_0000
    ensures Sends(c, Slice(VarCount, e), Many(vs),
                  Sending(Varuint(|vs|) + Joined(zs), Many(Backs(zs)),
                          (c.limits ==> |vs| <= 1024) && forall i | 0 <= i < |zs| :: zs[i].within))
  {
    hide Enc, Canon, Within, Fits, EncSome, CanonSome, WithinSome;
    SomeSend(c, e, vs, zs);
    ListWritten(c, e, vs);
    ListCanon(c, e, vs);
    ListWithin(c, e, vs);
  }

  lemma ListWritten(c: Settings, e: Shape, vs: seq<Val>)
    requires |vs| < 0x1_0000_0000 && forall i | 0 <= i < |vs| :: Fits(e, vs[i])
    ensures var s, v := Slice(VarCount, e), Many(vs);
      Fits(s, v) && Enc(c, s, v) == Nbt.Then(Wrote(Varuint(|vs|)), EncSome(c, e, vs, |vs|))
  {
    hide EncForm, Counter.Of, EncSome;
    ListCounts(|vs|);
  }

  lemma ListCanon(c: Settings, e: Shape, vs: seq<Val>)
    requires |vs| < 0x1_0000_0000 && forall i | 0 <= i < |vs| :: Fits(e, vs[i])
    ensures Fits(Slice(VarCount, e), Many(vs))
    ensures Canon(c, Slice(VarCount, e), Many(vs)) == Many(CanonSome(c, e, vs, |vs|))
  {
    hide Counter.Of, CanonSome;
    ListCounts(|vs|);
  }

  lemma ListWithin(c: Settings, e: Shape, vs: seq<Val>)
    requires |vs| < 0x1_0000_0000 && forall i | 0 <= i < |vs| :: Fits(e, vs[i])
    ensures Fits(Slice(VarCount, e), Many(vs))
    ensures Within(c, Slice(VarCount, e), Many(vs)) <==> (c.limits ==> |vs| <= 1024) && WithinSome(c, e, vs, |vs|)
  {
    hide Counter.Of, WithinSome;
    ListCounts(|vs|);
  }

  lemma ListCounts(n: nat)
    requires n < 0x1_0000_0000
    ensures EncForm(VarCount.Form(), n) == Varuint(n) && VarCount.Of(n) == n
  {
    Pow2Values();
    SmallMod(n, Pow2(32));
  }

  /** Of a shape whose elements take space, the bytes of a value are read back as the value that comes back, or refused. */
  lemma SentIsRead(c: Settings, s: Shape, v: Val, z: Sending, t: Bytes, i: In)
    requires Grounded(s) && Sends(c, s, v, z) && Input(Wrote(z.bytes), t, i)
    ensures z.within ==> Back(Dec(c, s, i), None, z.back, t, i)
    ensures !z.within ==> Dec(c, s, i).Bad?
  {
    hide Grounded, Canon, Within, Enc, Dec, Fits;
    GroundedRoundTrip(c, s, v, t, i);
  }
}
